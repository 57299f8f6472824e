/** JavaScript's `Number.parseInt(s, 10)` on strings, with NaN as `None`.

    The string's leading white space is skipped, one optional sign is taken,
    and the longest run of decimal digits that follows is read; the rest of the
    string is ignored. Without any such digit the result is NaN. */
module ParseInt {
  import opened Zcl

  predicate IsDigit(c: char) {
    '0' <= c <= '9'
  }

  function DigitValue(c: char): (d: nat)
    requires IsDigit(c)
    ensures d < 10
  {
    (c as int) - ('0' as int)
  }

  function DigitChar(d: nat): (c: char)
    requires d < 10
    ensures IsDigit(c) && DigitValue(c) == d
  {
    ('0' as int + d) as char
  }

  /** The white-space and line-terminator characters the language skips. */
  predicate IsJsSpace(c: char) {
    || c == '\t' || c == '\n' || c == '\U{000B}' || c == '\U{000C}' || c == '\r' || c == ' '
    || c == '\U{00A0}' || c == '\U{1680}' || ('\U{2000}' <= c <= '\U{200A}')
    || c == '\U{2028}' || c == '\U{2029}' || c == '\U{202F}' || c == '\U{205F}' || c == '\U{3000}'
    || c == '\U{FEFF}'
  }

  predicate AllDigits(s: string) {
    forall i :: 0 <= i < |s| ==> IsDigit(s[i])
  }

  /** `s` without its leading white space. */
  function TrimStart(s: string): (t: string)
    ensures |t| <= |s|
    ensures forall i :: 0 <= i < |s| - |t| ==> IsJsSpace(s[i])
    ensures |t| > 0 ==> !IsJsSpace(t[0])
  {
    if |s| > 0 && IsJsSpace(s[0]) then TrimStart(s[1..]) else s
  }

  /** What trimming removes is a prefix: the rest of `s` is kept as it is. */
  lemma {:induction false} TrimStartIsSuffix(s: string)
    ensures TrimStart(s) == s[|s| - |TrimStart(s)|..]
  {
    if |s| > 0 && IsJsSpace(s[0]) {
      TrimStartIsSuffix(s[1..]);
    }
  }

  /** The longest prefix of `s` made of decimal digits. */
  function DigitPrefix(s: string): (d: string)
    ensures d <= s && AllDigits(d)
    ensures |d| < |s| ==> !IsDigit(s[|d|])
  {
    if |s| > 0 && IsDigit(s[0]) then [s[0]] + DigitPrefix(s[1..]) else []
  }

  /** The value of a digit string, most significant digit first. */
  function DigitsValue(d: string): nat
    requires AllDigits(d)
  {
    DigitsValueAfter(0, d)
  }

  /** The value of `acc` followed by the digits of `d`. */
  function DigitsValueAfter(acc: nat, d: string): nat
    requires AllDigits(d)
    decreases |d|
  {
    if d == [] then acc else DigitsValueAfter(10 * acc + DigitValue(d[0]), d[1..])
  }

  /** Appending a digit multiplies the value by ten and adds the digit. */
  lemma {:induction false} DigitsValueAppend(acc: nat, d: string, c: char)
    requires AllDigits(d) && IsDigit(c)
    ensures DigitsValueAfter(acc, d + [c]) == 10 * DigitsValueAfter(acc, d) + DigitValue(c)
    decreases |d|
  {
    if d == [] {
      assert d + [c] == [c];
      assert [c][1..] == [];
    } else {
      assert (d + [c])[1..] == d[1..] + [c];
      DigitsValueAppend(10 * acc + DigitValue(d[0]), d[1..], c);
    }
  }

  /** The sign character taken after the white space, if any. */
  predicate HasSign(t: string) {
    |t| > 0 && (t[0] == '-' || t[0] == '+')
  }

  predicate IsNegative(t: string) {
    |t| > 0 && t[0] == '-'
  }

  /** `t` without its sign character. */
  function Unsigned(t: string): string {
    if HasSign(t) then t[1..] else t
  }

  predicate StartsWithDigit(u: string) {
    |u| > 0 && IsDigit(u[0])
  }

  /** Parses a string whose leading white space is already removed. */
  function ParseSigned(t: string): (r: Option<int>)
    ensures r.Some? <==> StartsWithDigit(Unsigned(t))
    ensures r.Some? && !IsNegative(t) ==> r.value >= 0
    ensures r.Some? && IsNegative(t) ==> r.value <= 0
  {
    var digits := DigitPrefix(Unsigned(t));
    var magnitude: int := DigitsValue(digits);
    if digits == [] then None
    else if IsNegative(t) then Some(-magnitude)
    else Some(magnitude)
  }

  function ParseInt(s: string): (r: Option<int>)
    ensures r.Some? <==> StartsWithDigit(Unsigned(TrimStart(s)))
    ensures r.Some? && !IsNegative(TrimStart(s)) ==> r.value >= 0
    ensures r.Some? && IsNegative(TrimStart(s)) ==> r.value <= 0
  {
    ParseSigned(TrimStart(s))
  }

  /** The shortest decimal spelling of `n`. */
  function DecimalString(n: nat): (s: string)
    ensures |s| > 0 && AllDigits(s)
    ensures |s| > 1 ==> s[0] != '0'
  {
    if n < 10 then [DigitChar(n)] else DecimalString(n / 10) + [DigitChar(n % 10)]
  }

  lemma {:induction false} DecimalStringValue(n: nat)
    ensures DigitsValue(DecimalString(n)) == n
  {
    if n < 10 {
      var s := DecimalString(n);
      assert s[1..] == [];
      assert DigitsValueAfter(0, s) == DigitsValueAfter(DigitValue(s[0]), s[1..]);
    } else {
      DecimalStringValue(n / 10);
      DigitsValueAppend(0, DecimalString(n / 10), DigitChar(n % 10));
    }
  }

  /** A digit string, possibly followed by a tail that does not start with a
      digit, parses to the digits' value. */
  lemma ParseIntDigits(d: string, tail: string)
    requires |d| > 0 && AllDigits(d)
    requires tail == [] || !IsDigit(tail[0])
    ensures ParseInt(d + tail) == Some(DigitsValue(d))
  {
    var s := d + tail;
    assert s[0] == d[0];
    DigitPrefixOfAppend(d, tail);
  }

  /** The same with a minus sign in front: the negated value. */
  lemma ParseIntNegativeDigits(d: string, tail: string)
    requires |d| > 0 && AllDigits(d)
    requires tail == [] || !IsDigit(tail[0])
    ensures ParseInt(['-'] + (d + tail)) == Some(-(DigitsValue(d) as int))
  {
    var s := d + tail;
    var m := ['-'] + s;
    assert m[0] == '-' && m[1..] == s && s[0] == d[0];
    DigitPrefixOfAppend(d, tail);
  }

  /** Parsing the decimal spelling of a natural number gives the number back,
      and so does parsing it with a minus sign in front. */
  lemma ParseIntDecimal(n: nat)
    ensures ParseInt(DecimalString(n)) == Some(n)
    ensures ParseInt(['-'] + DecimalString(n)) == Some(-(n as int))
  {
    var s := DecimalString(n);
    assert s + [] == s;
    DecimalStringValue(n);
    ParseIntDigits(s, []);
    ParseIntNegativeDigits(s, []);
  }

  /** Parsing stops at the first character that is not a digit. */
  lemma ParseIntIgnoresTail(n: nat, tail: string)
    requires tail == [] || !IsDigit(tail[0])
    ensures ParseInt(DecimalString(n) + tail) == Some(n)
  {
    DecimalStringValue(n);
    ParseIntDigits(DecimalString(n), tail);
  }

  lemma {:induction false} DigitPrefixOfAppend(d: string, tail: string)
    requires AllDigits(d)
    requires tail == [] || !IsDigit(tail[0])
    ensures DigitPrefix(d + tail) == d
  {
    if d == [] {
      assert d + tail == tail;
    } else {
      assert (d + tail)[1..] == d[1..] + tail;
      DigitPrefixOfAppend(d[1..], tail);
    }
  }

  /** Trimming skips exactly a run of white space that precedes a character
      that is not white space. */
  lemma {:induction false} TrimStartSpaces(w: string, rest: string)
    requires forall i :: 0 <= i < |w| ==> IsJsSpace(w[i])
    requires |rest| > 0 && !IsJsSpace(rest[0])
    ensures TrimStart(w + rest) == rest
  {
    if w == [] {
      assert w + rest == rest;
    } else {
      assert (w + rest)[0] == w[0];
      assert (w + rest)[1..] == w[1..] + rest;
      TrimStartSpaces(w[1..], rest);
    }
  }

  /** The general form the parser accepts: white space, an optional sign, a
      run of digits (leading zeros included) and a tail that does not start
      with a digit. The result is the digits' value, negated after '-'. */
  lemma ParseIntSpelling(w: string, sign: string, d: string, tail: string)
    requires forall i :: 0 <= i < |w| ==> IsJsSpace(w[i])
    requires sign == "" || sign == "+" || sign == "-"
    requires |d| > 0 && AllDigits(d)
    requires tail == [] || !IsDigit(tail[0])
    ensures ParseInt(w + sign + d + tail)
         == Some(if sign == "-" then -(DigitsValue(d) as int) else DigitsValue(d) as int)
  {
    var rest := sign + (d + tail);
    assert w + sign + d + tail == w + rest;
    assert rest[0] == if sign == "" then d[0] else sign[0];
    TrimStartSpaces(w, rest);
    assert Unsigned(rest) == d + tail by {
      if sign != "" {
        assert rest[1..] == d + tail;
      }
    }
    DigitPrefixOfAppend(d, tail);
  }
}
