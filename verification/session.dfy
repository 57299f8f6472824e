/** Sequential execution of a request plan against an endpoint.

    Every helper of the attribute layer awaits its requests one after the
    other and lets the first rejection propagate to its caller. A helper is
    therefore described completely by its plan (the requests it would issue if
    all were acknowledged) together with `Run`, which issues the plan until the
    transport rejects a request. Nothing is retried and nothing is rolled back. */
module Session {
  import opened Zcl

  /** The transport's verdicts: `ok(k)` tells whether the k-th request of the
      session (counting from 0) is acknowledged. */
  type Transport = nat -> bool

  datatype Outcome = Completed | Rejected(at: Request)

  /** The requests actually sent, in order (a rejected request was sent), and
      how the sequence ended. */
  datatype Execution = Execution(sent: seq<Request>, outcome: Outcome)

  /** The transport seen by the requests that follow the first `n`. */
  function Shift(ok: Transport, n: nat): Transport {
    (k: nat) => ok(k + n)
  }

  /** Issues `plan[k..]`, the first `k` requests having been acknowledged. */
  function RunFrom(plan: seq<Request>, ok: Transport, k: nat): (e: Execution)
    requires k <= |plan|
    requires forall i :: 0 <= i < k ==> ok(i)
    ensures plan[..k] <= e.sent <= plan
    ensures e.outcome.Completed? <==> forall i :: 0 <= i < |plan| ==> ok(i)
    ensures e.outcome.Completed? ==> e.sent == plan
    ensures e.outcome.Rejected? ==>
              && |e.sent| > 0
              && e.outcome.at == e.sent[|e.sent| - 1]
              && !ok(|e.sent| - 1)
              && forall i :: 0 <= i < |e.sent| - 1 ==> ok(i)
    decreases |plan| - k
  {
    if k == |plan| then
      Execution(plan, Completed)
    else if !ok(k) then
      Execution(plan[..k + 1], Rejected(plan[k]))
    else
      RunFrom(plan, ok, k + 1)
  }

  /** Issues `plan` in order and stops at the first rejected request. */
  function Run(plan: seq<Request>, ok: Transport): (e: Execution)
    ensures e.sent <= plan
    ensures e.outcome.Completed? <==> forall i :: 0 <= i < |plan| ==> ok(i)
    ensures e.outcome.Completed? ==> e.sent == plan
    ensures e.outcome.Rejected? ==>
              && |e.sent| > 0
              && e.outcome.at == e.sent[|e.sent| - 1]
              && !ok(|e.sent| - 1)
              && forall i :: 0 <= i < |e.sent| - 1 ==> ok(i)
  {
    RunFrom(plan, ok, 0)
  }

  /** The outcome of a run is fixed by the index of the first rejection. */
  lemma RunRejectedAt(plan: seq<Request>, ok: Transport, j: nat)
    requires j < |plan|
    requires !ok(j)
    requires forall i :: 0 <= i < j ==> ok(i)
    ensures Run(plan, ok) == Execution(plan[..j + 1], Rejected(plan[j]))
  {
    var e := Run(plan, ok);
    assert !(forall i :: 0 <= i < |plan| ==> ok(i)) by {
      assert !ok(j);
    }
    var m := |e.sent| - 1;
    if m < j {
      assert false;
    } else if m > j {
      assert false;
    }
    assert e.sent == plan[..j + 1];
  }

  /** A run that acknowledges every request sends the whole plan. */
  lemma RunAllAcknowledged(plan: seq<Request>, ok: Transport)
    requires forall i :: 0 <= i < |plan| ==> ok(i)
    ensures Run(plan, ok) == Execution(plan, Completed)
  {
  }

  /** A rejection inside the first plan ends the concatenation there. */
  lemma RunAppendFirstRejected(p: seq<Request>, q: seq<Request>, ok: Transport)
    requires Run(p, ok).outcome.Rejected?
    ensures Run(p + q, ok) == Run(p, ok)
  {
    var e := Run(p, ok);
    var j := |e.sent| - 1;
    assert e.sent == p[..j + 1];
    RunRejectedAt(p, ok, j);
    RunRejectedAt(p + q, ok, j);
    assert (p + q)[..j + 1] == p[..j + 1];
  }

  /** Once the first plan is acknowledged throughout, the second plan runs on
      the shifted transport, and its requests follow the first plan's. */
  lemma RunAppendSecondRejected(p: seq<Request>, q: seq<Request>, ok: Transport)
    requires forall i :: 0 <= i < |p| ==> ok(i)
    requires Run(q, Shift(ok, |p|)).outcome.Rejected?
    ensures var f := Run(q, Shift(ok, |p|));
            Run(p + q, ok) == Execution(p + f.sent, f.outcome)
  {
    var s := Shift(ok, |p|);
    var f := Run(q, s);
    var j := |f.sent| - 1;
    assert f.sent == q[..j + 1];
    RunRejectedAt(q, s, j);
    assert !ok(|p| + j) by { assert !s(j); }
    forall i | 0 <= i < |p| + j
      ensures ok(i)
    {
      if i >= |p| {
        assert s(i - |p|);
      }
    }
    RunRejectedAt(p + q, ok, |p| + j);
    assert (p + q)[..|p| + j + 1] == p + q[..j + 1];
  }

  lemma RunAppendCompleted(p: seq<Request>, q: seq<Request>, ok: Transport)
    requires forall i :: 0 <= i < |p| ==> ok(i)
    requires Run(q, Shift(ok, |p|)).outcome.Completed?
    ensures Run(p + q, ok) == Execution(p + q, Completed)
  {
    var s := Shift(ok, |p|);
    forall i | 0 <= i < |p + q|
      ensures ok(i)
    {
      if i >= |p| {
        assert s(i - |p|);
      }
    }
    RunAllAcknowledged(p + q, ok);
  }

  /** Awaiting one plan and then another is running their concatenation: the
      second plan starts only when the first one completed. */
  lemma RunAppend(p: seq<Request>, q: seq<Request>, ok: Transport)
    ensures Run(p + q, ok) ==
              (var e := Run(p, ok);
               if e.outcome.Rejected? then e
               else var f := Run(q, Shift(ok, |p|)); Execution(p + f.sent, f.outcome))
  {
    if Run(p, ok).outcome.Rejected? {
      RunAppendFirstRejected(p, q, ok);
    } else if Run(q, Shift(ok, |p|)).outcome.Rejected? {
      RunAppendSecondRejected(p, q, ok);
    } else {
      RunAppendCompleted(p, q, ok);
    }
  }
}
