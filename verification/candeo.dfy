/** The Candeo vendor codec: the external switch-type attribute (its label
    tables, inbound and outbound converters), the illuminance scale of the
    motion sensor, and the configure sequences of the switch and dimmer
    modules. */
module Candeo {
  import opened Zcl
  import opened Session
  import P = ParseInt

  /** Vendor code that scopes the switch-type attribute. */
  const ManufacturerCode := 0x1224
  /** The vendor-specific switch-type attribute of `genBasic`. */
  const SwitchTypeAttribute := 0x8803
  /** Wire type of the switch-type attribute: unsigned 8-bit integer. */
  const SwitchTypeDataType := 0x20

  const BasicCluster := Name("genBasic")
  const OnOffCluster := Name("genOnOff")
  const LevelCluster := Name("genLevelCtrl")

  const Unknown := "unknown"

  // ---------------------------------------------------------------------------
  // Switch-type label tables

  /** Number to label. Only the table's own two keys are present. */
  function ValueMap(v: int): (name: Option<string>)
    ensures name.Some? <==> v == 0 || v == 1
    ensures name.Some? ==> name.value != Unknown
  {
    if v == 0 then Some("momentary")
    else if v == 1 then Some("toggle")
    else None
  }

  /** Label to number. Only the table's own two keys are present. */
  function ValueLookup(name: string): (v: Option<int>)
    ensures v.Some? <==> name == "momentary" || name == "toggle"
  {
    if name == "momentary" then Some(0)
    else if name == "toggle" then Some(1)
    else None
  }

  /** The two tables are inverse to each other on their whole domain. */
  lemma ValueTablesInverse(v: int, name: string)
    ensures ValueMap(v) == Some(name) <==> ValueLookup(name) == Some(v)
    ensures ValueMap(0) == Some("momentary") && ValueMap(1) == Some("toggle")
    ensures ValueLookup("momentary") == Some(0) && ValueLookup("toggle") == Some(1)
  {
  }

  // ---------------------------------------------------------------------------
  // Inbound converter

  /** The state published for a switch-type report. */
  datatype SwitchTypeState = SwitchTypeState(externalSwitchType: string, externalSwitchTypeNumeric: int)

  /** Converts the data of a `genBasic` attribute report or read response:
      nothing when the switch-type attribute is absent; otherwise its label
      (or "unknown") together with the raw number. */
  function SwitchTypeFromZigbee(data: map<Key, int>): (r: Option<SwitchTypeState>)
    ensures r.Some? <==> Code(SwitchTypeAttribute) in data
    ensures r.Some? ==> r.value.externalSwitchTypeNumeric == data[Code(SwitchTypeAttribute)]
    ensures r.Some? ==>
              (r.value.externalSwitchType == Unknown <==> ValueMap(r.value.externalSwitchTypeNumeric).None?)
    ensures r.Some? && r.value.externalSwitchType != Unknown ==>
              ValueLookup(r.value.externalSwitchType) == Some(r.value.externalSwitchTypeNumeric)
  {
    if Code(SwitchTypeAttribute) in data then
      var value := data[Code(SwitchTypeAttribute)];
      Some(SwitchTypeState(ValueMap(value).GetOr(Unknown), value))
    else
      None
  }

  /** A number outside the table decodes to "unknown" and keeps the number. */
  lemma UnknownValueKept(data: map<Key, int>)
    requires Code(SwitchTypeAttribute) in data && data[Code(SwitchTypeAttribute)] == 5
    ensures SwitchTypeFromZigbee(data) == Some(SwitchTypeState(Unknown, 5))
  {
  }

  // ---------------------------------------------------------------------------
  // Outbound converter

  /** The value handed to the set converter: a string, or anything else. */
  datatype JsValue = JsString(s: string) | JsNonString

  /** Label first, then a decimal parse of the raw string; an unparsable
      string yields NaN and is not rejected. */
  function ResolveSwitchType(value: string): (n: WireNumber)
    ensures ValueLookup(value).Some? ==> n.Finite? && ValueMap(n.n) == Some(value)
    ensures ValueLookup(value).None? ==> (n.NaN? <==> P.ParseInt(value).None?)
    ensures ValueLookup(value).None? && n.Finite? ==> P.ParseInt(value) == Some(n.n)
  {
    match ValueLookup(value)
    case Some(v) => Finite(v)
    case None =>
      match P.ParseInt(value)
      case Some(v) => Finite(v)
      case None => NaN
  }

  /** The manufacturer-scoped write of the switch type. */
  function SwitchTypeWrite(entity: EndpointRef, value: WireNumber): Request {
    Request(entity, Write(BasicCluster, [WriteRecord(Code(SwitchTypeAttribute), value, SwitchTypeDataType)],
                          Some(ManufacturerCode)))
  }

  datatype ConvertError = NotAString | TransportFailure(at: Request)

  /** The state update returned by the set converter, or why it failed. */
  datatype SetOutcome = StateUpdate(externalSwitchType: string) | Failed(error: ConvertError)

  datatype SetResult = SetResult(sent: seq<Request>, outcome: SetOutcome)

  /** The set converter: one write; on success the state echoes the input. */
  function SwitchTypeConvertSet(entity: EndpointRef, value: JsValue, ok: Transport): (r: SetResult)
    ensures value.JsNonString? ==> r == SetResult([], Failed(NotAString))
    ensures value.JsString? ==>
              && |r.sent| == 1
              && r.sent[0].endpoint == entity
              && r.sent[0].op.Write?
              && r.sent[0].op.cluster == BasicCluster
              && r.sent[0].op.manufacturerCode == Some(ManufacturerCode)
              && r.sent[0].op.records
                 == [WriteRecord(Code(SwitchTypeAttribute), ResolveSwitchType(value.s), SwitchTypeDataType)]
    ensures r.outcome.StateUpdate? <==> value.JsString? && ok(0)
    ensures r.outcome.StateUpdate? ==> r.outcome.externalSwitchType == value.s
  {
    match value
    case JsNonString => SetResult([], Failed(NotAString))
    case JsString(s) =>
      var e := Run([SwitchTypeWrite(entity, ResolveSwitchType(s))], ok);
      match e.outcome
      case Completed => SetResult(e.sent, StateUpdate(s))
      case Rejected(at) => SetResult(e.sent, Failed(TransportFailure(at)))
  }

  /** The get converter: one manufacturer-scoped read; it returns no state. */
  function SwitchTypeConvertGet(entity: EndpointRef): (plan: seq<Request>)
    ensures |plan| == 1
    ensures plan[0].endpoint == entity && plan[0].op.Read?
    ensures plan[0].op.cluster == BasicCluster
    ensures plan[0].op.attributes == [Code(SwitchTypeAttribute)]
    ensures plan[0].op.manufacturerCode == Some(ManufacturerCode)
  {
    [Request(entity, Read(BasicCluster, [Code(SwitchTypeAttribute)], Some(ManufacturerCode)))]
  }

  /** The get converter reads the very attribute the set converter writes,
      under the same cluster and vendor scope, and its response is decoded by
      the inbound converter with the raw value kept. */
  lemma SwitchTypeAccessesAgree(entity: EndpointRef, s: string, ok: Transport, v: int)
    ensures var read := SwitchTypeConvertGet(entity)[0].op;
            var write := SwitchTypeConvertSet(entity, JsString(s), ok).sent[0].op;
            && read.cluster == write.cluster == BasicCluster
            && read.manufacturerCode == write.manufacturerCode == Some(ManufacturerCode)
            && read.attributes == [write.records[0].attribute]
            && SwitchTypeFromZigbee(map[read.attributes[0] := v]).Some?
            && SwitchTypeFromZigbee(map[read.attributes[0] := v]).value.externalSwitchTypeNumeric == v
  {
  }

  /** Setting a label writes a number that, reported back by the device, is
      decoded to the same label. */
  lemma SetThenReportRoundTrip(entity: EndpointRef, name: string, ok: Transport)
    requires ValueLookup(name).Some?
    ensures var r := SwitchTypeConvertSet(entity, JsString(name), ok);
            var w := r.sent[0].op.records[0];
            && w.value.Finite?
            && SwitchTypeFromZigbee(map[w.attribute := w.value.n])
               == Some(SwitchTypeState(name, ValueLookup(name).value))
  {
    var r := SwitchTypeConvertSet(entity, JsString(name), ok);
    var w := r.sent[0].op.records[0];
    ValueTablesInverse(w.value.n, name);
  }

  /** A decimal string is not a label, so it resolves through the parse to
      its own number. */
  lemma DecimalStringResolves(n: nat)
    ensures ResolveSwitchType(P.DecimalString(n)) == Finite(n)
  {
    var s := P.DecimalString(n);
    P.ParseIntDecimal(n);
    assert P.IsDigit(s[0]);
    assert ValueLookup(s).None? by {
      assert "momentary"[0] == 'm' && "toggle"[0] == 't';
    }
  }

  /** Setting "1" writes the number 1, as an 8-bit unsigned value, scoped to
      the vendor; "1" decodes back to "toggle". */
  lemma SetNumericString(entity: EndpointRef, ok: Transport)
    ensures SwitchTypeConvertSet(entity, JsString("1"), ok).sent
         == [Request(entity, Write(BasicCluster, [WriteRecord(Code(SwitchTypeAttribute), Finite(1), 0x20)], Some(0x1224)))]
    ensures ValueMap(1) == Some("toggle")
  {
    DecimalStringResolves(1);
    assert P.DecimalString(1) == "1";
  }

  /** A string that is neither a label nor a number is still written, as NaN. */
  lemma UnparsableStringWritten(entity: EndpointRef, ok: Transport)
    ensures SwitchTypeConvertSet(entity, JsString("on"), ok).sent[0].op.records[0].value == NaN
  {
    assert ValueLookup("on").None?;
    assert P.TrimStart("on") == "on";
    assert !P.IsDigit('o');
  }

  /** A rejected write yields no state update. */
  lemma RejectedSetPublishesNothing(entity: EndpointRef, s: string, ok: Transport)
    requires !ok(0)
    ensures SwitchTypeConvertSet(entity, JsString(s), ok).outcome
         == Failed(TransportFailure(SwitchTypeWrite(entity, ResolveSwitchType(s))))
  {
    RunRejectedAt([SwitchTypeWrite(entity, ResolveSwitchType(s))], ok, 0);
  }

  // ---------------------------------------------------------------------------
  // Illuminance scale

  datatype ScaleDirection = FromDevice | ToDevice

  /** The three calibration segments over `x`; a non-positive `x` falls in
      none of them and is left as it is. */
  function LuxCalibration(x: real): real {
    if 0.0 < x <= 2200.0 then -7.969192 + 0.0151988 * x
    else if 2200.0 < x <= 2500.0 then -1069.189434 + 0.4950663 * x
    else if x > 2500.0 then 78029.21628 - 61.73575 * x + 0.01223567 * (x * x)
    else x
  }

  /** The calibrated value with a floor of 1. */
  function LuxFromExponent(x: real): (r: real)
    ensures r >= 1.0
    ensures r == 1.0 <==> x * 0.0151988 <= 8.969192
    ensures r > 1.0 ==> r == LuxCalibration(x)
  {
    var y := LuxCalibration(x);
    if y < 1.0 then 1.0
    else if x > 2500.0 then QuadraticSegmentAboveFloor(x); y
    else y
  }

  /** The quadratic segment never reaches the floor. */
  lemma QuadraticSegmentAboveFloor(x: real)
    requires x > 2500.0
    ensures 78029.21628 - 61.73575 * x + 0.01223567 * (x * x) > 1.0
  {
    var t := x - 2500.0;
    assert 78029.21628 - 61.73575 * x + 0.01223567 * (x * x)
        == 0.01223567 * (t * t) - 0.5574 * t + 162.77878;
    if t <= 45.0 {
      assert 0.5574 * t <= 25.083;
    }
  }

  /** The illuminance scale: identity toward the device; from the device the
      raw value is mapped through `x = 10 ** ((value - 1) / 10000)`, given here
      as `exp10`, then calibrated and floored at 1. */
  function LuxScale(value: real, direction: ScaleDirection, exp10: real -> real): (r: real)
    ensures direction == ToDevice ==> r == value
    ensures direction == FromDevice ==> r >= 1.0
    ensures direction == FromDevice ==>
              var x := exp10((value - 1.0) / 10000.0);
              && (r == 1.0 <==> x * 0.0151988 <= 8.969192)
              && (r > 1.0 ==> r == LuxCalibration(x))
  {
    match direction
    case ToDevice => value
    case FromDevice => LuxFromExponent(exp10((value - 1.0) / 10000.0))
  }

  /** A raw value of 1 gives 1 lux, since the exponent is then 10 ** 0 = 1. */
  lemma LuxScaleOfOne(exp10: real -> real)
    requires exp10(0.0) == 1.0
    ensures LuxScale(1.0, FromDevice, exp10) == 1.0
  {
  }

  /** The segment boundaries: 2200 is still in the first segment, 2500 in the
      second, and 2600 in the quadratic one. */
  lemma LuxSegmentBoundaries()
    ensures LuxFromExponent(2200.0) == 25.468168
    ensures LuxFromExponent(2500.0) == 168.476316
    ensures LuxFromExponent(2600.0) == 229.39548
  {
  }

  /** The segments do not join up: the value falls when `x` crosses 2200. */
  lemma LuxDropsAfterFirstSegment()
    ensures LuxFromExponent(2201.0) < LuxFromExponent(2200.0)
  {
    assert LuxFromExponent(2201.0) == 20.4514923;
  }

  // ---------------------------------------------------------------------------
  // Configure sequences

  function WriteAttribute(endpoint: EndpointRef, cluster: Key, id: int, value: int, dataType: int): Request {
    Request(endpoint, Write(cluster, [WriteRecord(Code(id), Finite(value), dataType)], None))
  }

  function ReadAttribute(endpoint: EndpointRef, cluster: Key, attribute: Key): Request {
    Request(endpoint, Read(cluster, [attribute], None))
  }

  /** The cluster library's names for the numeric attribute ids written here. */
  function AttributeName(cluster: Key, id: int): Option<string> {
    if cluster == OnOffCluster && id == 0x4003 then Some("startUpOnOff")
    else if cluster == LevelCluster && id == 0x0011 then Some("onLevel")
    else if cluster == LevelCluster && id == 0x0010 then Some("onOffTransitionTime")
    else if cluster == LevelCluster && id == 0x4000 then Some("startUpCurrentLevel")
    else None
  }

  /** `read` designates the attribute `written`, by the same key or by name. */
  predicate SameAttribute(cluster: Key, written: Key, read: Key) {
    || written == read
    || (written.Code? && read.Name? && AttributeName(cluster, written.code) == Some(read.name))
  }

  /** `r` reads back, on the same endpoint and cluster, what `w` wrote. */
  predicate ReadsBack(w: Request, r: Request) {
    && w.op.Write? && r.op.Read?
    && r.endpoint == w.endpoint
    && r.op.cluster == w.op.cluster
    && r.op.manufacturerCode == w.op.manufacturerCode
    && |r.op.attributes| == |w.op.records|
    && forall j :: 0 <= j < |r.op.attributes| ==>
         SameAttribute(w.op.cluster, w.op.records[j].attribute, r.op.attributes[j])
  }

  /** One attribute written by a request: where, what value, which wire
      type, and under which vendor scope. */
  datatype WrittenAttribute = WrittenAttribute(
    cluster: Key, attribute: Key, value: WireNumber, dataType: int, manufacturerCode: Option<int>)

  /** The attributes a request writes, in record order. */
  function RequestWrites(r: Request): (ws: seq<WrittenAttribute>)
    ensures r.op.Write? ==> |ws| == |r.op.records|
    ensures !r.op.Write? ==> ws == []
  {
    if r.op.Write? then
      seq(|r.op.records|, j requires 0 <= j < |r.op.records| =>
        WrittenAttribute(r.op.cluster, r.op.records[j].attribute, r.op.records[j].value,
                         r.op.records[j].dataType, r.op.manufacturerCode))
    else []
  }

  /** Every attribute a plan writes, in the order the plan writes them. */
  function Writes(plan: seq<Request>): seq<WrittenAttribute> {
    if plan == [] then [] else RequestWrites(plan[0]) + Writes(plan[1..])
  }

  lemma {:induction false} WritesAppend(p: seq<Request>, q: seq<Request>)
    ensures Writes(p + q) == Writes(p) + Writes(q)
  {
    if p == [] {
      assert p + q == q;
    } else {
      assert (p + q)[1..] == p[1..] + q;
      WritesAppend(p[1..], q);
    }
  }

  /** Power-on behaviour "previous state": genOnOff startUpOnOff (0x4003) := 0xff as enum8. */
  const StartUpOnOffWrite := WrittenAttribute(OnOffCluster, Code(0x4003), Finite(0xff), 0x30, None)

  /** The dimmers' level settings: on level (0x0011) := 0xff as uint8,
      transition time (0x0010) := 10 as uint16, start-up level (0x4000) := 0xff
      as uint8. */
  const LevelWrites := [
    WrittenAttribute(LevelCluster, Code(0x0011), Finite(0xff), 0x20, None),
    WrittenAttribute(LevelCluster, Code(0x0010), Finite(0x0a), 0x21, None),
    WrittenAttribute(LevelCluster, Code(0x4000), Finite(0xff), 0x20, None)]

  /** Every write is immediately followed by a read of what it wrote. */
  predicate WritesReadBack(plan: seq<Request>) {
    forall i :: 0 <= i < |plan| && plan[i].op.Write? ==> i + 1 < |plan| && ReadsBack(plan[i], plan[i + 1])
  }

  /** Read-back is compositional: a plan whose writes are each read back
      cannot end in a write, so joining two such plans keeps the property. */
  lemma WritesReadBackAppend(p: seq<Request>, q: seq<Request>)
    requires WritesReadBack(p) && WritesReadBack(q)
    ensures WritesReadBack(p + q)
  {
    var pq := p + q;
    forall i | 0 <= i < |pq| && pq[i].op.Write?
      ensures i + 1 < |pq| && ReadsBack(pq[i], pq[i + 1])
    {
      if i < |p| {
        assert pq[i] == p[i] && pq[i + 1] == p[i + 1];
      } else {
        assert pq[i] == q[i - |p|] && pq[i + 1] == q[i - |p| + 1];
      }
    }
  }

  function EndpointIds(plan: seq<Request>): (ids: seq<nat>)
    ensures |ids| == |plan|
    ensures forall i :: 0 <= i < |plan| ==> ids[i] == plan[i].endpoint.id
  {
    seq(|plan|, i requires 0 <= i < |plan| => plan[i].endpoint.id)
  }

  /** Power-on behaviour: write startUpOnOff (0x4003) as 0xff and read it back by name. */
  function StartUpOnOffByName(endpoint: EndpointRef): seq<Request> {
    [WriteAttribute(endpoint, OnOffCluster, 0x4003, 0xff, 0x30),
     ReadAttribute(endpoint, OnOffCluster, Name("startUpOnOff"))]
  }

  /** The same write, read back by its numeric id. */
  function StartUpOnOffById(endpoint: EndpointRef): seq<Request> {
    [WriteAttribute(endpoint, OnOffCluster, 16387, 0xff, 0x30),
     ReadAttribute(endpoint, OnOffCluster, Code(16387))]
  }

  /** The dimmers' level settings, each read back by name. */
  function LevelSettings(endpoint: EndpointRef): seq<Request> {
    [WriteAttribute(endpoint, LevelCluster, 17, 0xff, 0x20),
     ReadAttribute(endpoint, LevelCluster, Name("onLevel")),
     WriteAttribute(endpoint, LevelCluster, 16, 0x0a, 0x21),
     ReadAttribute(endpoint, LevelCluster, Name("onOffTransitionTime")),
     WriteAttribute(endpoint, LevelCluster, 16384, 0xff, 0x20),
     ReadAttribute(endpoint, LevelCluster, Name("startUpCurrentLevel"))]
  }

  /** A write followed by a read writes exactly the write's one attribute. */
  lemma WritesOfWriteThenRead(endpoint: EndpointRef, cluster: Key, id: int, value: int, dataType: int, attribute: Key)
    ensures Writes([WriteAttribute(endpoint, cluster, id, value, dataType), ReadAttribute(endpoint, cluster, attribute)])
         == [WrittenAttribute(cluster, Code(id), Finite(value), dataType, None)]
  {
    var w := WriteAttribute(endpoint, cluster, id, value, dataType);
    var p := [w, ReadAttribute(endpoint, cluster, attribute)];
    assert RequestWrites(w) == [WrittenAttribute(cluster, Code(id), Finite(value), dataType, None)];
    assert p[1..][1..] == [];
    assert Writes(p[1..]) == RequestWrites(p[1]) + Writes(p[1..][1..]) == [];
    assert Writes(p) == RequestWrites(w) + Writes(p[1..]);
  }

  lemma WritesOfStartUpOnOff(endpoint: EndpointRef)
    ensures Writes(StartUpOnOffByName(endpoint)) == [StartUpOnOffWrite]
    ensures Writes(StartUpOnOffById(endpoint)) == [StartUpOnOffWrite]
  {
    WritesOfWriteThenRead(endpoint, OnOffCluster, 0x4003, 0xff, 0x30, Name("startUpOnOff"));
    WritesOfWriteThenRead(endpoint, OnOffCluster, 16387, 0xff, 0x30, Code(16387));
  }

  lemma WritesOfLevelSettings(endpoint: EndpointRef)
    ensures Writes(LevelSettings(endpoint)) == LevelWrites
  {
    var a := [WriteAttribute(endpoint, LevelCluster, 17, 0xff, 0x20),
              ReadAttribute(endpoint, LevelCluster, Name("onLevel"))];
    var b := [WriteAttribute(endpoint, LevelCluster, 16, 0x0a, 0x21),
              ReadAttribute(endpoint, LevelCluster, Name("onOffTransitionTime"))];
    var c := [WriteAttribute(endpoint, LevelCluster, 16384, 0xff, 0x20),
              ReadAttribute(endpoint, LevelCluster, Name("startUpCurrentLevel"))];
    WritesOfWriteThenRead(endpoint, LevelCluster, 17, 0xff, 0x20, Name("onLevel"));
    WritesOfWriteThenRead(endpoint, LevelCluster, 16, 0x0a, 0x21, Name("onOffTransitionTime"));
    WritesOfWriteThenRead(endpoint, LevelCluster, 16384, 0xff, 0x20, Name("startUpCurrentLevel"));
    WritesAppend(a, b);
    WritesAppend(a + b, c);
    assert LevelSettings(endpoint) == a + b + c;
  }

  lemma PartsReadBack(endpoint: EndpointRef)
    ensures WritesReadBack(StartUpOnOffByName(endpoint))
    ensures WritesReadBack(StartUpOnOffById(endpoint))
    ensures WritesReadBack(LevelSettings(endpoint))
    ensures WritesReadBack(SwitchTypeConvertGet(endpoint))
  {
  }

  lemma WritesOfSwitchTypeGet(endpoint: EndpointRef)
    ensures Writes(SwitchTypeConvertGet(endpoint)) == []
  {
    assert SwitchTypeConvertGet(endpoint)[1..] == [];
  }

  /** C205 switch module: power-on behaviour, then the switch-type read. */
  function ConfigureC205(device: nat): (plan: seq<Request>)
    ensures |plan| == 3
    ensures Writes(plan) == [StartUpOnOffWrite]
    ensures WritesReadBack(plan)
    ensures forall i :: 0 <= i < |plan| ==> plan[i].endpoint == EndpointRef(device, 1)
    ensures plan[2..] == SwitchTypeConvertGet(EndpointRef(device, 1))
  {
    var endpoint1 := EndpointRef(device, 1);
    WritesOfStartUpOnOff(endpoint1);
    WritesOfSwitchTypeGet(endpoint1);
    WritesAppend(StartUpOnOffByName(endpoint1), SwitchTypeConvertGet(endpoint1));
    StartUpOnOffByName(endpoint1) + SwitchTypeConvertGet(endpoint1)
  }

  /** The dimmer sequence on one endpoint: power-on behaviour, the level
      settings, then the switch-type read. */
  function DimmerPlan(endpoint: EndpointRef): seq<Request> {
    StartUpOnOffByName(endpoint) + LevelSettings(endpoint) + SwitchTypeConvertGet(endpoint)
  }

  lemma DimmerPlanShape(endpoint: EndpointRef)
    ensures var plan := DimmerPlan(endpoint);
            && |plan| == 9
            && (forall i :: 0 <= i < |plan| ==> plan[i].endpoint == endpoint)
            && (forall i :: 0 <= i < 8 ==> (plan[i].op.Write? <==> i % 2 == 0))
            && (forall i :: 0 <= i < 8 && i % 2 == 0 ==> plan[i].op.Write? && |plan[i].op.records| == 1)
            && plan[8..] == SwitchTypeConvertGet(endpoint)
  {
  }

  lemma DimmerPlanWrites(endpoint: EndpointRef)
    ensures Writes(DimmerPlan(endpoint)) == [StartUpOnOffWrite] + LevelWrites
  {
    var a := StartUpOnOffByName(endpoint);
    var b := LevelSettings(endpoint);
    var c := SwitchTypeConvertGet(endpoint);
    WritesOfStartUpOnOff(endpoint);
    WritesOfLevelSettings(endpoint);
    WritesOfSwitchTypeGet(endpoint);
    WritesAppend(a, b);
    WritesAppend(a + b, c);
  }

  lemma DimmerPlanReadBack(endpoint: EndpointRef)
    ensures WritesReadBack(DimmerPlan(endpoint))
  {
    var a := StartUpOnOffByName(endpoint);
    var b := LevelSettings(endpoint);
    var c := SwitchTypeConvertGet(endpoint);
    PartsReadBack(endpoint);
    WritesReadBackAppend(a, b);
    WritesReadBackAppend(a + b, c);
  }

  /** C204, C-ZB-DM204 and C203 dimmers: power-on behaviour, on level,
      transition time and start-up level, each read back, then the switch-type
      read. The three models share this sequence. */
  function ConfigureDimmer(device: nat): (plan: seq<Request>)
    ensures |plan| == 9
    ensures Writes(plan) == [StartUpOnOffWrite] + LevelWrites
    ensures WritesReadBack(plan)
    ensures forall i :: 0 <= i < |plan| ==> plan[i].endpoint == EndpointRef(device, 1)
    ensures forall i :: 0 <= i < 8 ==> (plan[i].op.Write? <==> i % 2 == 0)
    ensures forall i :: 0 <= i < 8 && i % 2 == 0 ==> plan[i].op.Write? && |plan[i].op.records| == 1
    ensures plan[8..] == SwitchTypeConvertGet(EndpointRef(device, 1))
  {
    var endpoint1 := EndpointRef(device, 1);
    DimmerPlanShape(endpoint1);
    DimmerPlanWrites(endpoint1);
    DimmerPlanReadBack(endpoint1);
    DimmerPlan(endpoint1)
  }

  /** The dimmer sequence starts like the switch module's and ends with the
      same switch-type read. */
  lemma DimmerExtendsSwitchModule(device: nat)
    ensures ConfigureDimmer(device)[..2] == ConfigureC205(device)[..2]
    ensures ConfigureDimmer(device)[8] == ConfigureC205(device)[2]
  {
  }

  /** The two-gang sequence: power-on behaviour on two endpoints, then the
      switch-type read on a third. */
  function TwoGangPlan(first: EndpointRef, second: EndpointRef, switchType: EndpointRef): seq<Request> {
    StartUpOnOffById(first) + StartUpOnOffById(second) + SwitchTypeConvertGet(switchType)
  }

  lemma TwoGangPlanWrites(first: EndpointRef, second: EndpointRef, switchType: EndpointRef)
    ensures Writes(TwoGangPlan(first, second, switchType)) == [StartUpOnOffWrite, StartUpOnOffWrite]
  {
    var a := StartUpOnOffById(first);
    var b := StartUpOnOffById(second);
    var c := SwitchTypeConvertGet(switchType);
    WritesOfStartUpOnOff(first);
    WritesOfStartUpOnOff(second);
    WritesOfSwitchTypeGet(switchType);
    WritesAppend(a, b);
    WritesAppend(a + b, c);
  }

  lemma TwoGangPlanReadBack(first: EndpointRef, second: EndpointRef, switchType: EndpointRef)
    ensures WritesReadBack(TwoGangPlan(first, second, switchType))
  {
    var a := StartUpOnOffById(first);
    var b := StartUpOnOffById(second);
    var c := SwitchTypeConvertGet(switchType);
    PartsReadBack(first);
    PartsReadBack(second);
    PartsReadBack(switchType);
    WritesReadBackAppend(a, b);
    WritesReadBackAppend(a + b, c);
  }

  /** C-ZB-SM205-2G two-gang module: power-on behaviour on endpoint 1, then on
      endpoint 2 (read back by id), then the switch-type read on endpoint 11. */
  function ConfigureSm205TwoGang(device: nat): (plan: seq<Request>)
    ensures |plan| == 5
    ensures Writes(plan) == [StartUpOnOffWrite, StartUpOnOffWrite]
    ensures WritesReadBack(plan)
    ensures EndpointIds(plan) == [1, 1, 2, 2, 11]
    ensures forall i :: 0 <= i < |plan| ==> plan[i].endpoint.device == device
    ensures plan[0].op == Write(OnOffCluster, [WriteRecord(Code(16387), Finite(0xff), 0x30)], None)
    ensures plan[1].op == Read(OnOffCluster, [Code(16387)], None)
    ensures plan[0].op == plan[2].op && plan[1].op == plan[3].op
    ensures plan[4..] == SwitchTypeConvertGet(EndpointRef(device, 11))
  {
    var endpoint1 := EndpointRef(device, 1);
    var endpoint2 := EndpointRef(device, 2);
    var endpoint11 := EndpointRef(device, 11);
    TwoGangPlanWrites(endpoint1, endpoint2, endpoint11);
    TwoGangPlanReadBack(endpoint1, endpoint2, endpoint11);
    TwoGangPlan(endpoint1, endpoint2, endpoint11)
  }

  /** A rejected write on endpoint 2 leaves endpoint 1 configured and never
      reaches endpoint 11. */
  lemma TwoGangStopsAtEndpoint2(device: nat, ok: Transport)
    requires ok(0) && ok(1) && !ok(2)
    ensures var e := Run(ConfigureSm205TwoGang(device), ok);
            && EndpointIds(e.sent) == [1, 1, 2]
            && e.outcome.Rejected?
            && forall i :: 0 <= i < |e.sent| ==> e.sent[i].endpoint.id != 11
  {
    RunRejectedAt(ConfigureSm205TwoGang(device), ok, 2);
  }
}
