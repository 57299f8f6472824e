/** The reporting-configuration layer: the payload builder, the bind and
    multiplier/divisor helpers, and the per-quantity configurators.

    Every helper is a plan (the requests it issues when each one is
    acknowledged); `Session.Run` gives what is sent when the transport rejects
    one of them. */
module Reporting {
  import opened Zcl
  import opened Session

  // ---------------------------------------------------------------------------
  // Payload builder

  /** Per-call overrides. An absent field keeps the default it would replace. */
  datatype Override = Override(min: Option<Interval>, max: Option<Interval>, change: Option<int>)

  /** The no-override value: every field absent. */
  const NoOverride := Override(None, None, None)

  /** Replaces each field of `p` for which `o` carries a value, one field at a time. */
  function ApplyOverride(p: ReportingPayload, o: Override): ReportingPayload {
    var p := if o.min.Some? then p.(minimumReportInterval := o.min.value) else p;
    var p := if o.max.Some? then p.(maximumReportInterval := o.max.value) else p;
    if o.change.Some? then p.(reportableChange := o.change) else p
  }

  /** Builds the one-element payload list passed to `configureReporting`. The
      interval order is not checked. */
  function Payload(attribute: Key, min: Interval, max: Interval, change: Option<int>, overrides: Option<Override>)
    : (ps: seq<ReportingPayload>)
    ensures |ps| == 1
    ensures ps[0].attribute == attribute
    ensures overrides.None? ==> ps[0] == ReportingPayload(attribute, min, max, change)
    ensures overrides.Some? ==>
              && ps[0].minimumReportInterval == overrides.value.min.GetOr(min)
              && ps[0].maximumReportInterval == overrides.value.max.GetOr(max)
              && (overrides.value.change.Some? ==> ps[0].reportableChange == overrides.value.change)
              && (overrides.value.change.None? ==> ps[0].reportableChange == change)
  {
    var p := ReportingPayload(attribute, min, max, change);
    var p := if overrides.Some? then ApplyOverride(p, overrides.value) else p;
    [p]
  }

  /** An override is the same as building the payload from overridden defaults. */
  lemma PayloadOverrideIsNewDefaults(attribute: Key, min: Interval, max: Interval, change: Option<int>, o: Override)
    ensures Payload(attribute, min, max, change, Some(o))
         == Payload(attribute, o.min.GetOr(min), o.max.GetOr(max),
                    if o.change.Some? then o.change else change, None)
  {
  }

  /** An override object with no field set changes nothing. */
  lemma EmptyOverrideIsNoOverride(attribute: Key, min: Interval, max: Interval, change: Option<int>)
    ensures Payload(attribute, min, max, change, Some(NoOverride)) == Payload(attribute, min, max, change, None)
  {
  }

  /** Overriding only the change threshold keeps both default intervals. */
  lemma OverrideChangeOnly(attribute: Key, min: Interval, max: Interval, change: Option<int>, c: int)
    ensures var p := Payload(attribute, min, max, change, Some(Override(None, None, Some(c))))[0];
            p == ReportingPayload(attribute, min, max, Some(c))
  {
  }

  /** An inverted interval pair is copied into the payload as given. */
  lemma InvertedOverrideKept(attribute: Key, min: Interval, max: Interval, change: Option<int>, lo: int, hi: int)
    requires lo > hi
    ensures var p := Payload(attribute, min, max, change, Some(Override(Some(Seconds(lo)), Some(Seconds(hi)), None)))[0];
            p.minimumReportInterval.seconds > p.maximumReportInterval.seconds
  {
  }

  // ---------------------------------------------------------------------------
  // Bind and multiplier/divisor reads

  /** One bind request per cluster, in list order, all to `target`. */
  function BindPlan(endpoint: EndpointRef, target: EndpointRef, clusters: seq<Key>): (plan: seq<Request>)
    ensures |plan| == |clusters|
    ensures forall i :: 0 <= i < |plan| ==>
              plan[i].endpoint == endpoint && plan[i].op.Bind? && plan[i].op.target == target
    ensures forall i :: 0 <= i < |plan| ==> plan[i].op.cluster == clusters[i]
  {
    if clusters == [] then []
    else [Request(endpoint, Bind(clusters[0], target))] + BindPlan(endpoint, target, clusters[1..])
  }

  /** The bind helper as its source loop: one awaited bind per cluster; a
      rejection ends the loop and is passed to the caller. */
  method BindClusters(endpoint: EndpointRef, target: EndpointRef, clusters: seq<Key>, ok: Transport)
    returns (e: Execution)
    ensures e == Run(BindPlan(endpoint, target, clusters), ok)
  {
    ghost var plan := BindPlan(endpoint, target, clusters);
    var sent := [];
    var i := 0;
    while i < |clusters|
      invariant 0 <= i <= |clusters|
      invariant sent == plan[..i]
      invariant forall j :: 0 <= j < i ==> ok(j)
    {
      var request := Request(endpoint, Bind(clusters[i], target));
      assert request == plan[i];
      assert plan[..i + 1] == plan[..i] + [plan[i]];
      sent := sent + [request];
      if !ok(i) {
        RunRejectedAt(plan, ok, i);
        return Execution(sent, Rejected(request));
      }
      i := i + 1;
    }
    assert plan[..i] == plan;
    RunAllAcknowledged(plan, ok);
    return Execution(sent, Completed);
  }

  /** A rejected bind stops the helper: clusters after it are never bound. */
  lemma BindStopsAtRejection(endpoint: EndpointRef, target: EndpointRef, clusters: seq<Key>, ok: Transport, j: nat)
    requires j < |clusters|
    requires !ok(j)
    requires forall i :: 0 <= i < j ==> ok(i)
    ensures var e := Run(BindPlan(endpoint, target, clusters), ok);
            && |e.sent| == j + 1
            && e.outcome == Rejected(Request(endpoint, Bind(clusters[j], target)))
            && forall i :: 0 <= i < |e.sent| ==> e.sent[i].op.cluster == clusters[i]
  {
    RunRejectedAt(BindPlan(endpoint, target, clusters), ok, j);
  }

  const ElectricalCluster := Name(ClusterName(HaElectricalMeasurement))
  const MeteringCluster := Name(ClusterName(SeMetering))

  /** The voltage, current and power scaling attributes, in request order. */
  const PowerScalingAttributes: seq<Key> :=
    [Name("acVoltageMultiplier"), Name("acVoltageDivisor"), Name("acCurrentMultiplier"),
     Name("acCurrentDivisor"), Name("acPowerMultiplier"), Name("acPowerDivisor")]

  /** The frequency scaling attributes, in request order. */
  const FrequencyScalingAttributes: seq<Key> := [Name("acFrequencyDivisor"), Name("acFrequencyMultiplier")]

  /** The electrical-measurement scaling reads, in three chunks; the frequency
      chunk only when `readFrequencyAttrs` holds (callers that omit the flag
      pass false). */
  function ReadElectricalMeasurementMultiplierDivisors(endpoint: EndpointRef, readFrequencyAttrs: bool)
    : (plan: seq<Request>)
    ensures |plan| == if readFrequencyAttrs then 3 else 2
    ensures forall i :: 0 <= i < |plan| ==>
              && plan[i].endpoint == endpoint
              && plan[i].op.Read? && plan[i].op.cluster == ElectricalCluster
              && plan[i].op.manufacturerCode.None?
              && 0 < |plan[i].op.attributes| <= 3
    ensures plan[0].op.attributes == PowerScalingAttributes[..3]
    ensures plan[1].op.attributes == PowerScalingAttributes[3..]
    ensures readFrequencyAttrs ==> plan[2].op.attributes == FrequencyScalingAttributes
  {
    var first := Read(ElectricalCluster, PowerScalingAttributes[..3], None);
    var second := Read(ElectricalCluster, PowerScalingAttributes[3..], None);
    var frequency := Read(ElectricalCluster, FrequencyScalingAttributes, None);
    [Request(endpoint, first), Request(endpoint, second)]
    + (if readFrequencyAttrs then [Request(endpoint, frequency)] else [])
  }

  /** The chunks request the six voltage/current/power scaling attributes in
      order, then the two frequency ones exactly when the flag is set. */
  lemma ElectricalChunksInOrder(endpoint: EndpointRef, readFrequencyAttrs: bool)
    ensures AttributesRead(ReadElectricalMeasurementMultiplierDivisors(endpoint, readFrequencyAttrs))
         == PowerScalingAttributes + (if readFrequencyAttrs then FrequencyScalingAttributes else [])
  {
    var plan := ReadElectricalMeasurementMultiplierDivisors(endpoint, readFrequencyAttrs);
    assert AttributesRead(plan[..2]) == PowerScalingAttributes by {
      assert plan[..2][1..] == [plan[1]];
      assert plan[..2][1..][1..] == [];
      assert AttributesRead(plan[..2][1..][1..]) == [];
      assert AttributesRead(plan[..2]) == plan[0].op.attributes + plan[1].op.attributes;
      assert PowerScalingAttributes[..3] + PowerScalingAttributes[3..] == PowerScalingAttributes;
    }
    if readFrequencyAttrs {
      assert [plan[2]][1..] == [];
      AttributesReadAppend(plan[..2], [plan[2]]);
      assert plan[..2] + [plan[2]] == plan;
    } else {
      assert plan[..2] == plan;
    }
  }

  /** The attributes requested by a sequence of reads, in request order. */
  function AttributesRead(plan: seq<Request>): seq<Key>
    requires forall i :: 0 <= i < |plan| ==> plan[i].op.Read?
  {
    if plan == [] then [] else plan[0].op.attributes + AttributesRead(plan[1..])
  }

  lemma {:induction false} AttributesReadAppend(p: seq<Request>, q: seq<Request>)
    requires forall i :: 0 <= i < |p| ==> p[i].op.Read?
    requires forall i :: 0 <= i < |q| ==> q[i].op.Read?
    ensures AttributesRead(p + q) == AttributesRead(p) + AttributesRead(q)
  {
    if p == [] {
      assert p + q == q;
    } else {
      assert (p + q)[1..] == p[1..] + q;
      AttributesReadAppend(p[1..], q);
    }
  }

  /** No scaling attribute is requested twice, with or without the frequency chunk. */
  lemma ElectricalReadsNoAttributeTwice(endpoint: EndpointRef, readFrequencyAttrs: bool)
    ensures var attrs := AttributesRead(ReadElectricalMeasurementMultiplierDivisors(endpoint, readFrequencyAttrs));
            forall i, j :: 0 <= i < j < |attrs| ==> attrs[i] != attrs[j]
  {
    ElectricalChunksInOrder(endpoint, readFrequencyAttrs);
  }

  /** A rejected first chunk means the later chunks are never requested. */
  lemma ElectricalFirstChunkRejected(endpoint: EndpointRef, readFrequencyAttrs: bool, ok: Transport)
    requires !ok(0)
    ensures var e := Run(ReadElectricalMeasurementMultiplierDivisors(endpoint, readFrequencyAttrs), ok);
            |e.sent| == 1 && e.outcome.Rejected?
  {
    RunRejectedAt(ReadElectricalMeasurementMultiplierDivisors(endpoint, readFrequencyAttrs), ok, 0);
  }

  /** The metering scaling read: one request for multiplier and divisor. */
  function ReadMeteringMultiplierDivisor(endpoint: EndpointRef): (plan: seq<Request>)
    ensures |plan| == 1
    ensures plan[0].endpoint == endpoint && plan[0].op.Read? && plan[0].op.manufacturerCode.None?
    ensures plan[0].op.cluster == MeteringCluster
    ensures plan[0].op.attributes == [Name("multiplier"), Name("divisor")]
  {
    [Request(endpoint, Read(MeteringCluster, [Name("multiplier"), Name("divisor")], None))]
  }

  // ---------------------------------------------------------------------------
  // Per-quantity configurators

  /** The physical quantities that have a configurator. */
  datatype Quantity =
    | CurrentPositionLiftPercentage | CurrentPositionTiltPercentage
    | BatteryPercentageRemaining | BatteryVoltage | BatteryAlarmState
    | OnOff | OnTime | LockState | DoorState | Brightness | ColorTemperature | Occupancy
    | Temperature | Co2 | DeviceTemperature | Pressure | PressureExtended | Illuminance
    | InstantaneousDemand | CurrentSummDelivered | CurrentSummReceived
    | ThermostatSystemMode | Humidity | ThermostatKeypadLockMode | ThermostatTemperature
    | ThermostatTemperatureCalibration
    | ThermostatOccupiedHeatingSetpoint | ThermostatUnoccupiedHeatingSetpoint
    | ThermostatOccupiedCoolingSetpoint | ThermostatUnoccupiedCoolingSetpoint
    | ThermostatPIHeatingDemand | ThermostatPICoolingDemand
    | ThermostatRunningState | ThermostatRunningMode | ThermostatOccupancy
    | ThermostatTemperatureSetpointHold | ThermostatTemperatureSetpointHoldDuration
    | ThermostatAcLouverPosition
    | PresentValue | ActivePower | ReactivePower | ApparentPower | RmsCurrent | RmsVoltage
    | PowerFactor | FanMode | SoilMoisture | AcFrequency

  /** The clusters the configurators report on. */
  datatype Cluster =
    | ClosuresDoorLock | ClosuresWindowCovering | GenBinaryInput | GenDeviceTempCfg
    | GenLevelCtrl | GenOnOff | GenPowerCfg | HaElectricalMeasurement
    | HvacFanCtrl | HvacThermostat | HvacUserInterfaceCfg | LightingColorCtrl
    | MsCo2 | MsIlluminanceMeasurement | MsOccupancySensing | MsPressureMeasurement
    | MsRelativeHumidity | MsSoilMoisture | MsTemperatureMeasurement | SeMetering

  /** The cluster's name on the wire. */
  function ClusterName(c: Cluster): string {
    match c
    case ClosuresDoorLock => "closuresDoorLock"
    case ClosuresWindowCovering => "closuresWindowCovering"
    case GenBinaryInput => "genBinaryInput"
    case GenDeviceTempCfg => "genDeviceTempCfg"
    case GenLevelCtrl => "genLevelCtrl"
    case GenOnOff => "genOnOff"
    case GenPowerCfg => "genPowerCfg"
    case HaElectricalMeasurement => "haElectricalMeasurement"
    case HvacFanCtrl => "hvacFanCtrl"
    case HvacThermostat => "hvacThermostat"
    case HvacUserInterfaceCfg => "hvacUserInterfaceCfg"
    case LightingColorCtrl => "lightingColorCtrl"
    case MsCo2 => "msCO2"
    case MsIlluminanceMeasurement => "msIlluminanceMeasurement"
    case MsOccupancySensing => "msOccupancySensing"
    case MsPressureMeasurement => "msPressureMeasurement"
    case MsRelativeHumidity => "msRelativeHumidity"
    case MsSoilMoisture => "msSoilMoisture"
    case MsTemperatureMeasurement => "msTemperatureMeasurement"
    case SeMetering => "seMetering"
  }

  /** What a configurator does: the cluster and attribute it configures, its
      default payload fields, and whether it reads the attribute back. */
  datatype Descriptor = Descriptor(
    cluster: Cluster, attribute: string,
    min: Interval, max: Interval, change: Option<int>,
    readBack: bool)

  /** A configurator that only configures reporting. */
  function Reports(cluster: Cluster, attribute: string, min: Interval, max: Interval, change: Option<int>): Descriptor {
    Descriptor(cluster, attribute, min, max, change, false)
  }

  /** A battery configurator: reporting on `genPowerCfg` every hour at the
      latest-possible maximum, any change, then a confirmatory read. */
  function Battery(attribute: string): Descriptor {
    Descriptor(GenPowerCfg, attribute, Hour, Max, Some(0), true)
  }

  /** The quantities configured without a reportable-change threshold. */
  predicate NullThreshold(q: Quantity) {
    q.ThermostatSystemMode? || q.ThermostatKeypadLockMode? || q.ThermostatRunningMode? || q.ThermostatAcLouverPosition?
  }

  /** The facts every row of the table satisfies. */
  predicate WellFormedRow(q: Quantity, d: Descriptor) {
    && (d.readBack <==> d.cluster == GenPowerCfg)
    && (d.readBack ==> d.min == Hour && d.max == Max && d.change == Some(0))
    && (!d.readBack ==> d.min.Seconds? && 0 <= d.min.seconds <= 300)
    && !d.max.Seconds?
    && (d.max == Minute ==> d.min.seconds <= 10)
    && (d.max == Minutes5 ==> d.min.seconds <= 5)
    && (d.change.Some? ==> d.change.value >= 0)
    && (d.change.None? ==> d.cluster == HvacThermostat || d.cluster == HvacUserInterfaceCfg)
    && (d.change.None? <==> NullThreshold(q))
  }

  /** The registry of configurators with their literal defaults. */
  function Defaults(q: Quantity): Descriptor {
    match q
    case CurrentPositionLiftPercentage =>
      Reports(ClosuresWindowCovering, "currentPositionLiftPercentage", Seconds(1), Max, Some(1))
    case CurrentPositionTiltPercentage =>
      Reports(ClosuresWindowCovering, "currentPositionTiltPercentage", Seconds(1), Max, Some(1))
    case BatteryPercentageRemaining => Battery("batteryPercentageRemaining")
    case BatteryVoltage => Battery("batteryVoltage")
    case BatteryAlarmState => Battery("batteryAlarmState")
    case OnOff => Reports(GenOnOff, "onOff", Seconds(0), Hour, Some(0))
    case OnTime => Reports(GenOnOff, "onTime", Seconds(0), Hour, Some(40))
    case LockState => Reports(ClosuresDoorLock, "lockState", Seconds(0), Hour, Some(0))
    case DoorState => Reports(ClosuresDoorLock, "doorState", Seconds(0), Hour, Some(0))
    case Brightness => Reports(GenLevelCtrl, "currentLevel", Seconds(1), Hour, Some(1))
    case ColorTemperature => Reports(LightingColorCtrl, "colorTemperature", Seconds(0), Hour, Some(1))
    case Occupancy => Reports(MsOccupancySensing, "occupancy", Seconds(0), Hour, Some(0))
    case Temperature => Reports(MsTemperatureMeasurement, "measuredValue", Seconds(10), Hour, Some(100))
    case Co2 => Reports(MsCo2, "measuredValue", Seconds(10), Hour, Some(1))
    case DeviceTemperature => Reports(GenDeviceTempCfg, "currentTemperature", Seconds(300), Hour, Some(1))
    case Pressure => Reports(MsPressureMeasurement, "measuredValue", Seconds(10), Hour, Some(5))
    case PressureExtended => Reports(MsPressureMeasurement, "scaledValue", Seconds(10), Hour, Some(5))
    case Illuminance => Reports(MsIlluminanceMeasurement, "measuredValue", Seconds(10), Hour, Some(5))
    case InstantaneousDemand => Reports(SeMetering, "instantaneousDemand", Seconds(5), Hour, Some(1))
    case CurrentSummDelivered => Reports(SeMetering, "currentSummDelivered", Seconds(5), Hour, Some(257))
    case CurrentSummReceived => Reports(SeMetering, "currentSummReceived", Seconds(5), Hour, Some(257))
    case ThermostatSystemMode => Reports(HvacThermostat, "systemMode", Seconds(10), Hour, None)
    case Humidity => Reports(MsRelativeHumidity, "measuredValue", Seconds(10), Hour, Some(100))
    case ThermostatKeypadLockMode => Reports(HvacUserInterfaceCfg, "keypadLockout", Seconds(10), Hour, None)
    case ThermostatTemperature => Reports(HvacThermostat, "localTemp", Seconds(0), Hour, Some(10))
    case ThermostatTemperatureCalibration =>
      Reports(HvacThermostat, "localTemperatureCalibration", Seconds(0), Hour, Some(0))
    case ThermostatOccupiedHeatingSetpoint =>
      Reports(HvacThermostat, "occupiedHeatingSetpoint", Seconds(0), Hour, Some(10))
    case ThermostatUnoccupiedHeatingSetpoint =>
      Reports(HvacThermostat, "unoccupiedHeatingSetpoint", Seconds(0), Hour, Some(10))
    case ThermostatOccupiedCoolingSetpoint =>
      Reports(HvacThermostat, "occupiedCoolingSetpoint", Seconds(0), Hour, Some(10))
    case ThermostatUnoccupiedCoolingSetpoint =>
      Reports(HvacThermostat, "unoccupiedCoolingSetpoint", Seconds(0), Hour, Some(10))
    case ThermostatPIHeatingDemand => Reports(HvacThermostat, "pIHeatingDemand", Seconds(0), Hour, Some(10))
    case ThermostatPICoolingDemand => Reports(HvacThermostat, "pICoolingDemand", Seconds(0), Hour, Some(10))
    case ThermostatRunningState => Reports(HvacThermostat, "runningState", Seconds(0), Hour, Some(0))
    case ThermostatRunningMode => Reports(HvacThermostat, "runningMode", Seconds(10), Hour, None)
    case ThermostatOccupancy => Reports(HvacThermostat, "occupancy", Seconds(0), Hour, Some(0))
    case ThermostatTemperatureSetpointHold =>
      Reports(HvacThermostat, "tempSetpointHold", Seconds(0), Hour, Some(0))
    case ThermostatTemperatureSetpointHoldDuration =>
      Reports(HvacThermostat, "tempSetpointHoldDuration", Seconds(0), Hour, Some(10))
    case ThermostatAcLouverPosition => Reports(HvacThermostat, "acLouverPosition", Seconds(0), Hour, None)
    case PresentValue => Reports(GenBinaryInput, "presentValue", Seconds(10), Minute, Some(1))
    case ActivePower => Reports(HaElectricalMeasurement, "activePower", Seconds(5), Hour, Some(1))
    case ReactivePower => Reports(HaElectricalMeasurement, "reactivePower", Seconds(5), Hour, Some(1))
    case ApparentPower => Reports(HaElectricalMeasurement, "apparentPower", Seconds(5), Hour, Some(1))
    case RmsCurrent => Reports(HaElectricalMeasurement, "rmsCurrent", Seconds(5), Hour, Some(1))
    case RmsVoltage => Reports(HaElectricalMeasurement, "rmsVoltage", Seconds(5), Hour, Some(1))
    case PowerFactor => Reports(HaElectricalMeasurement, "powerFactor", Seconds(0), Max, Some(1))
    case FanMode => Reports(HvacFanCtrl, "fanMode", Seconds(0), Hour, Some(0))
    case SoilMoisture => Reports(MsSoilMoisture, "measuredValue", Seconds(10), Hour, Some(100))
    case AcFrequency => Reports(HaElectricalMeasurement, "acFrequency", Seconds(5), Minutes5, Some(10))
  }

  /** Splits the registry into six blocks of eight rows, in source order,
      so that the well-formedness proof is done one block at a time. */
  function Block(q: Quantity): (b: nat)
    ensures b < 6
  {
    match q
    case CurrentPositionLiftPercentage | CurrentPositionTiltPercentage | BatteryPercentageRemaining | BatteryVoltage |
         BatteryAlarmState | OnOff | OnTime | LockState => 0
    case DoorState | Brightness | ColorTemperature | Occupancy |
         Temperature | Co2 | DeviceTemperature | Pressure => 1
    case PressureExtended | Illuminance | InstantaneousDemand | CurrentSummDelivered |
         CurrentSummReceived | ThermostatSystemMode | Humidity | ThermostatKeypadLockMode => 2
    case ThermostatTemperature | ThermostatTemperatureCalibration | ThermostatOccupiedHeatingSetpoint | ThermostatUnoccupiedHeatingSetpoint |
         ThermostatOccupiedCoolingSetpoint | ThermostatUnoccupiedCoolingSetpoint | ThermostatPIHeatingDemand | ThermostatPICoolingDemand => 3
    case ThermostatRunningState | ThermostatRunningMode | ThermostatOccupancy | ThermostatTemperatureSetpointHold |
         ThermostatTemperatureSetpointHoldDuration | ThermostatAcLouverPosition | PresentValue | ActivePower => 4
    case _ => 5
  }

  lemma Block0WellFormed(q: Quantity)
    requires Block(q) == 0
    ensures WellFormedRow(q, Defaults(q))
  {
    match q {
      case CurrentPositionLiftPercentage =>
      case CurrentPositionTiltPercentage =>
      case BatteryPercentageRemaining =>
      case BatteryVoltage =>
      case BatteryAlarmState =>
      case OnOff =>
      case OnTime =>
      case LockState =>
    }
  }

  lemma Block1WellFormed(q: Quantity)
    requires Block(q) == 1
    ensures WellFormedRow(q, Defaults(q))
  {
    match q {
      case DoorState =>
      case Brightness =>
      case ColorTemperature =>
      case Occupancy =>
      case Temperature =>
      case Co2 =>
      case DeviceTemperature =>
      case Pressure =>
    }
  }

  lemma Block2WellFormed(q: Quantity)
    requires Block(q) == 2
    ensures WellFormedRow(q, Defaults(q))
  {
    match q {
      case PressureExtended =>
      case Illuminance =>
      case InstantaneousDemand =>
      case CurrentSummDelivered =>
      case CurrentSummReceived =>
      case ThermostatSystemMode =>
      case Humidity =>
      case ThermostatKeypadLockMode =>
    }
  }

  lemma Block3WellFormed(q: Quantity)
    requires Block(q) == 3
    ensures WellFormedRow(q, Defaults(q))
  {
    match q {
      case ThermostatTemperature =>
      case ThermostatTemperatureCalibration =>
      case ThermostatOccupiedHeatingSetpoint =>
      case ThermostatUnoccupiedHeatingSetpoint =>
      case ThermostatOccupiedCoolingSetpoint =>
      case ThermostatUnoccupiedCoolingSetpoint =>
      case ThermostatPIHeatingDemand =>
      case ThermostatPICoolingDemand =>
    }
  }

  lemma Block4WellFormed(q: Quantity)
    requires Block(q) == 4
    ensures WellFormedRow(q, Defaults(q))
  {
    match q {
      case ThermostatRunningState =>
      case ThermostatRunningMode =>
      case ThermostatOccupancy =>
      case ThermostatTemperatureSetpointHold =>
      case ThermostatTemperatureSetpointHoldDuration =>
      case ThermostatAcLouverPosition =>
      case PresentValue =>
      case ActivePower =>
    }
  }

  lemma Block5WellFormed(q: Quantity)
    requires Block(q) == 5
    ensures WellFormedRow(q, Defaults(q))
  {
    match q {
      case ReactivePower =>
      case ApparentPower =>
      case RmsCurrent =>
      case RmsVoltage =>
      case PowerFactor =>
      case FanMode =>
      case SoilMoisture =>
      case AcFrequency =>
    }
  }

  /** Every row of the registry is well formed: exactly the `genPowerCfg`
      rows read back and use (HOUR, MAX, 0); every other row has a literal
      minimum of at most 300 s; maxima are named constants; thresholds are
      non-negative, and null only for the four thermostat-mode rows. */
  lemma DefaultsWellFormed(q: Quantity)
    ensures WellFormedRow(q, Defaults(q))
  {
    match Block(q)
    case 0 => Block0WellFormed(q);
    case 1 => Block1WellFormed(q);
    case 2 => Block2WellFormed(q);
    case 3 => Block3WellFormed(q);
    case 4 => Block4WellFormed(q);
    case 5 => Block5WellFormed(q);
  }

  /** The configurator for `q` on `endpoint`: configure reporting of the
      quantity's attribute, then read it back when the quantity asks for it. */
  function Configure(q: Quantity, endpoint: EndpointRef, overrides: Option<Override>): (plan: seq<Request>)
    ensures 1 <= |plan| <= 2
    ensures forall i :: 0 <= i < |plan| ==> plan[i].endpoint == endpoint
    ensures plan[0].op.ConfigureReporting? && plan[0].op.cluster == Name(ClusterName(Defaults(q).cluster))
    ensures plan[0].op.payloads
         == Payload(Name(Defaults(q).attribute), Defaults(q).min, Defaults(q).max, Defaults(q).change, overrides)
    ensures |plan| == 2 <==> Defaults(q).readBack
    ensures |plan| == 2 ==>
              && plan[1].op == Read(plan[0].op.cluster, [plan[0].op.payloads[0].attribute], None)
  {
    var d := Defaults(q);
    var cluster := Name(ClusterName(d.cluster));
    var configure := Request(endpoint, ConfigureReporting(cluster, Payload(Name(d.attribute), d.min, d.max, d.change, overrides)));
    if d.readBack then [configure, Request(endpoint, Read(cluster, [Name(d.attribute)], None))]
    else [configure]
  }

  /** Overrides change the payload and nothing else about a configurator. */
  lemma ConfigureOverridesOnlyPayload(q: Quantity, endpoint: EndpointRef, o: Override)
    ensures var with := Configure(q, endpoint, Some(o));
            var without := Configure(q, endpoint, None);
            && |with| == |without|
            && with[0].op.cluster == without[0].op.cluster
            && with[0].op.payloads[0].attribute == without[0].op.payloads[0].attribute
            && (|with| == 2 ==> with[1] == without[1])
  {
  }

  /** The battery configurators: reporting on `genPowerCfg` with defaults
      (HOUR, MAX, 0), then a read of the same attribute. */
  lemma BatteryConfigureThenRead(q: Quantity, endpoint: EndpointRef)
    requires q == BatteryPercentageRemaining || q == BatteryVoltage || q == BatteryAlarmState
    ensures var a := Name(Defaults(q).attribute);
            Configure(q, endpoint, None)
            == [Request(endpoint, ConfigureReporting(Name("genPowerCfg"), [ReportingPayload(a, Hour, Max, Some(0))])),
                Request(endpoint, Read(Name("genPowerCfg"), [a], None))]
  {
  }

  /** A rejected configureReporting means the confirmatory read is not sent. */
  lemma ConfigureRejectedSkipsRead(q: Quantity, endpoint: EndpointRef, overrides: Option<Override>, ok: Transport)
    requires !ok(0)
    ensures var e := Run(Configure(q, endpoint, overrides), ok);
            e.sent == [Configure(q, endpoint, overrides)[0]] && e.outcome.Rejected?
  {
    var plan := Configure(q, endpoint, overrides);
    RunRejectedAt(plan, ok, 0);
    assert plan[..1] == [plan[0]];
  }

  /** The temperature configurator's literal defaults. */
  lemma TemperatureDefaults(endpoint: EndpointRef)
    ensures Configure(Temperature, endpoint, None)
         == [Request(endpoint, ConfigureReporting(Name("msTemperatureMeasurement"),
                                                  [ReportingPayload(Name("measuredValue"), Seconds(10), Hour, Some(100))]))]
  {
  }

  /** A valuation of the named interval constants. */
  datatype IntervalValues = IntervalValues(minute: int, minutes5: int, hour: int, max: int)

  function SecondsOf(i: Interval, c: IntervalValues): int {
    match i
    case Seconds(n) => n
    case Minute => c.minute
    case Minutes5 => c.minutes5
    case Hour => c.hour
    case Max => c.max
  }

  /** Every default pair is ordered (minimum at most maximum) for any values of
      the named constants that are at least the literal minimums paired with
      them and keep HOUR below MAX. */
  lemma DefaultsOrdered(q: Quantity, c: IntervalValues)
    requires 10 <= c.minute && 5 <= c.minutes5 && 300 <= c.hour <= c.max
    ensures SecondsOf(Defaults(q).min, c) <= SecondsOf(Defaults(q).max, c)
  {
    var d := Defaults(q);
    DefaultsWellFormed(q);
    WellFormedOrdered(q, d, c);
  }

  /** A well-formed row's minimum is at most its maximum. */
  lemma WellFormedOrdered(q: Quantity, d: Descriptor, c: IntervalValues)
    requires WellFormedRow(q, d)
    requires 10 <= c.minute && 5 <= c.minutes5 && 300 <= c.hour <= c.max
    ensures SecondsOf(d.min, c) <= SecondsOf(d.max, c)
  {
  }
}
