# Attribute reporting and Candeo switch-type codec — a Dafny model

This project models two sequential pieces of a Zigbee gateway's attribute layer:

* the **reporting layer** (`src/lib/reporting.ts`). It has three parts:
  * the reporting-payload builder with per-call overrides;
  * the `bind` helper and the multiplier/divisor read helpers;
  * the 48 per-quantity configurators, from `currentPositionLiftPercentage` to `acFrequency`.
* the **Candeo vendor codec** (`src/devices/candeo.ts`). It has four parts:
  * the switch-type tables `valueMap`/`valueLookup`;
  * the inbound converter `fzLocal.switch_type` and the outbound converter `tzLocal.switch_type`;
  * the illuminance scale `luxScale`;
  * the `configure` sequences of the C205, C204 / C-ZB-DM204 / C203 and C-ZB-SM205-2G models.

The device endpoint is opaque. Each helper is modelled as a *plan*: the list of
requests (`read`, `write`, `bind`, `configureReporting`) it sends when every
request is acknowledged. `Session.Run` executes a plan against a transport. The
transport is a function `ok: nat -> bool` that says whether the k-th request of
the session is acknowledged. Execution stops at the first rejected request, and
that request counts as sent. This matches the source, where each request is
awaited and a rejection propagates to the caller. So ordering, exact defaults,
"stop at the first failure" and "nothing else is sent" are all facts about
sequences.

Modules:

| file | module | contents |
|---|---|---|
| zcl.dfy | `Zcl` | identifiers (`Key`), symbolic intervals, `ReportingPayload`, `Op`, `Request`, `Option` |
| session.dfy | `Session` | `Run` (sequential execution that stops at a rejection) and its composition lemma |
| reporting.dfy | `Reporting` | payload builder, bind, multiplier/divisor reads, configurator registry |
| parse_int.dfy | `ParseInt` | JavaScript `Number.parseInt(s, 10)` on strings, NaN as `None` |
| candeo.dfy | `Candeo` | switch-type tables and converters, `luxScale`, configure sequences |

Modelling choices:

* The interval constants `repInterval.HOUR`, `MAX`, `MINUTE` and `MINUTES_5` are
  defined outside the modelled files. They are symbolic here
  (`Interval.Hour`, …), and no value is assumed. `Reporting.DefaultsOrdered`
  takes their values as a parameter.
* The 48 configurators differ only in their constants. They are one registry,
  `Reporting.Defaults`, with one `Quantity` constructor per exported
  configurator, plus one generic `Reporting.Configure`.
* The set converter first looks the input up as a label. If that fails, it
  parses the input as a decimal integer, with JavaScript's rules: leading white
  space, an optional sign, and the longest run of digits. An input that is
  neither a label nor a number is not rejected: the parse yields `NaN`, and
  that `NaN` is written (`Candeo.UnparsableStringWritten`).
* `luxScale` is modelled over `real`. The exponent `10 ** ((value - 1) / 10000)`
  is a parameter `exp10` of `Candeo.LuxScale`. The segment bounds, the
  coefficients and the floor of 1 are the literal ones.
* The configure sequences write numeric attribute ids but read some of them back
  by name. `Candeo.AttributeName` supplies the four names the cluster library
  gives those ids: `startUpOnOff` = 0x4003, `onLevel` = 0x0011,
  `onOffTransitionTime` = 0x0010 and `startUpCurrentLevel` = 0x4000. With it,
  "every write is immediately read back" can be stated.

## Model

| member | source | states |
|---|---|---|
| `Reporting.Payload` | src/lib/reporting.ts:4-19 | The result is always a one-element list with the given attribute. With no overrides, the record holds the given min, max and change. With overrides, each present field replaces only its own field and every absent one keeps the argument. |
| `Reporting.PayloadOverrideIsNewDefaults` | src/lib/reporting.ts:12-16 | Building with an override equals building, without override, from the overridden defaults. |
| `Reporting.EmptyOverrideIsNoOverride` | src/lib/reporting.ts:12-16 | An override object with no field set gives the same payload as no override at all. |
| `Reporting.OverrideChangeOnly` | src/lib/reporting.ts:12-16 | Overriding only `change` keeps both default intervals and uses the new threshold. |
| `Reporting.InvertedOverrideKept` | src/lib/reporting.ts:13-14 | A minimum above the maximum is copied into the payload unchanged; no ordering check is made. |
| `Reporting.BindPlan` | src/lib/reporting.ts:38-42 | One bind per cluster, in list order, all from the same endpoint to the same target. |
| `Reporting.BindClusters` | src/lib/reporting.ts:38-42 | The source's loop of awaited binds sends exactly what running the bind plan sends, and ends the same way. |
| `Reporting.BindStopsAtRejection` | src/lib/reporting.ts:38-42 | When the bind of cluster j is rejected, clusters 0..j were attempted in order and no later cluster was. |
| `Reporting.ReadElectricalMeasurementMultiplierDivisors` | src/lib/reporting.ts:24-32 | Two reads, or three when `readFrequencyAttrs` is set. All are plain reads of `haElectricalMeasurement` on the endpoint. The first read asks for the voltage multiplier and divisor and the current multiplier. The second asks for the current divisor and the power multiplier and divisor. The third, only with the flag, asks for exactly the two frequency attributes. |
| `Reporting.ElectricalChunksInOrder` | src/lib/reporting.ts:25-31 | Concatenated, the chunks request the six voltage/current/power scaling attributes in source order. The two frequency attributes follow only when the flag is set. |
| `Reporting.ElectricalReadsNoAttributeTwice` | src/lib/reporting.ts:25-31 | No attribute is requested twice across the chunks. |
| `Reporting.ElectricalFirstChunkRejected` | src/lib/reporting.ts:26-27 | A rejected first chunk means no later chunk is requested. |
| `Reporting.ReadMeteringMultiplierDivisor` | src/lib/reporting.ts:34-36 | A single plain read of `multiplier` and `divisor` on `seMetering`. |
| `Reporting.DefaultsWellFormed` | src/lib/reporting.ts:44-238 | A quantity reads back its attribute exactly when its cluster is `genPowerCfg`, and those quantities use (HOUR, MAX, 0). All others have a literal minimum between 0 and 300 s. Every maximum is a named constant, and a MINUTE or MINUTES_5 maximum pairs with a minimum of at most 10 or 5 s. Every present threshold is at least 0. The threshold is null exactly for system mode, keypad lockout, running mode and louver position, all on `hvacThermostat` or `hvacUserInterfaceCfg`. |
| `Reporting.Configure` | src/lib/reporting.ts:44-238 | One `configureReporting` of the quantity's cluster, carrying the built payload. A second request exists exactly for read-back quantities, and it reads the configured attribute on the same cluster. Every request goes to the given endpoint. |
| `Reporting.ConfigureOverridesOnlyPayload` | src/lib/reporting.ts:44-238 | Overrides change the payload intervals and threshold, never the cluster, the attribute or the read-back. |
| `Reporting.BatteryConfigureThenRead` | src/lib/reporting.ts:52-66 | The three battery configurators configure `genPowerCfg` with (HOUR, MAX, 0) and then read that same attribute. |
| `Reporting.ConfigureRejectedSkipsRead` | src/lib/reporting.ts:52-56 | A rejected `configureReporting` ends the configurator, and the confirmatory read is not sent. |
| `Reporting.TemperatureDefaults` | src/lib/reporting.ts:95-98 | `temperature` is one `configureReporting` of `msTemperatureMeasurement` with (`measuredValue`, 10, HOUR, 100). |
| `Reporting.DefaultsOrdered` | src/lib/reporting.ts:44-238 | Default minimum ≤ default maximum for every quantity. This holds whenever MINUTE ≥ 10, MINUTES_5 ≥ 5 and 300 ≤ HOUR ≤ MAX. |
| `Session.Run` | src/lib/reporting.ts:24-32 | Awaited requests: what is sent is a prefix of the plan. The run completes exactly when every request is acknowledged. Otherwise the last request sent is the first rejected one, and every earlier one was acknowledged. |
| `Session.RunRejectedAt` | src/lib/reporting.ts:24-32 | The first rejection at index j fixes the run: the plan up to j is sent, and j is the reported failure. |
| `Session.RunAppend` | src/lib/reporting.ts:52-56 | Awaiting one plan and then another equals running their concatenation. The second plan starts only after the first completes. |
| `ParseInt.ParseInt` | src/devices/candeo.ts:60 | Returns a number exactly when a digit follows the leading white space and an optional sign. The result is non-negative unless the sign is '-'. |
| `ParseInt.ParseIntDecimal` | src/devices/candeo.ts:60 | Parsing the decimal spelling of n gives n, and with a leading '-' gives -n. |
| `ParseInt.ParseIntIgnoresTail` | src/devices/candeo.ts:60 | Characters after the digits are ignored. |
| `ParseInt.ParseIntSpelling` | src/devices/candeo.ts:60 | For any white space, then no sign, '+' or '-', then a run of digits (leading zeros allowed), then a tail that does not start with a digit, the result is the digits' value, negated after '-'. |
| `Candeo.ValueMap` | src/devices/candeo.ts:13-16 | A label is defined exactly for 0 and 1, and no label is "unknown". |
| `Candeo.ValueLookup` | src/devices/candeo.ts:17-20 | A number is defined exactly for "momentary" and "toggle". |
| `Candeo.ValueTablesInverse` | src/devices/candeo.ts:13-20 | `valueMap[v] == l` if and only if `valueLookup[l] == v`; the pairs are 0 ↔ "momentary" and 1 ↔ "toggle". |
| `Candeo.SwitchTypeFromZigbee` | src/devices/candeo.ts:42-51 | A result exists exactly when attribute 0x8803 is present, and it keeps the raw number. The label is "unknown" exactly when the number has no label. A known label looks up back to the raw number. |
| `Candeo.UnknownValueKept` | src/devices/candeo.ts:46-47 | The unmapped value 5 decodes to ("unknown", 5). |
| `Candeo.ResolveSwitchType` | src/devices/candeo.ts:59-60 | A label resolves to the number whose label it is. Any other string resolves to its decimal parse, and to NaN exactly when that parse fails. |
| `Candeo.SwitchTypeConvertSet` | src/devices/candeo.ts:58-67 | A non-string fails before anything is sent. A string sends exactly one write of the resolved value to attribute 0x8803 of `genBasic`, with type 0x20 and manufacturer code 0x1224. The state update exists exactly when the write is acknowledged, and it echoes the input unchanged. |
| `Candeo.SwitchTypeConvertGet` | src/devices/candeo.ts:68-70 | Exactly one read of 0x8803 on `genBasic`, scoped with manufacturer code 0x1224. |
| `Candeo.SwitchTypeAccessesAgree` | src/devices/candeo.ts:43-69 | The get converter reads the very attribute that the set converter writes, on the same cluster (`genBasic`) with the same manufacturer code (0x1224). Any value in the read's response is decoded by the inbound converter with the raw value kept. |
| `Candeo.SetThenReportRoundTrip` | src/devices/candeo.ts:43-66 | Setting a label writes a number that, reported back, decodes to the same label. |
| `Candeo.DecimalStringResolves` | src/devices/candeo.ts:60 | A decimal string is no label, so it resolves, through the integer fallback, to its own number. |
| `Candeo.SetNumericString` | src/devices/candeo.ts:58-66 | Setting "1" writes exactly the number 1 with type 0x20 and code 0x1224. |
| `Candeo.UnparsableStringWritten` | src/devices/candeo.ts:59-63 | A string that is neither a label nor a number is not rejected; the write carries NaN. |
| `Candeo.RejectedSetPublishesNothing` | src/devices/candeo.ts:61-66 | A rejected write reports that failure and returns no state. |
| `Candeo.LuxFromExponent` | src/devices/candeo.ts:25-34 | The result is at least 1. It is exactly 1 when the first segment's value is at most 1, that is when 0.0151988·x ≤ 8.969192. Above 1 it is the segment value itself. |
| `Candeo.QuadraticSegmentAboveFloor` | src/devices/candeo.ts:30-33 | The quadratic segment stays above 1 for every x > 2500. |
| `Candeo.LuxScale` | src/devices/candeo.ts:22-36 | The "to" direction is the identity. From the device, with x the exponent's value, the result is at least 1. It is exactly 1 when 0.0151988·x ≤ 8.969192, and above 1 it is the calibration segment that x selects. |
| `Candeo.LuxScaleOfOne` | src/devices/candeo.ts:24-33 | A raw value of 1 gives 1 lux. |
| `Candeo.LuxSegmentBoundaries` | src/devices/candeo.ts:26-32 | x = 2200 uses the first segment (25.468168), x = 2500 the second (168.476316), x = 2600 the quadratic (229.39548). |
| `Candeo.LuxDropsAfterFirstSegment` | src/devices/candeo.ts:26-29 | The scale is not continuous: it falls from 2200 to 2201. |
| `Candeo.ConfigureC205` | src/devices/candeo.ts:84-89 | Three requests, all on endpoint 1. The only write is `genOnOff` 0x4003 := 0xff as type 0x30, with no manufacturer code. It is immediately read back, and the sequence ends with the converter's switch-type read. |
| `Candeo.ConfigureDimmer` | src/devices/candeo.ts:121-132 | Nine requests, all on endpoint 1, alternating writes and reads, ending with the switch-type read. The writes are, in order: `genOnOff` 0x4003 := 0xff (type 0x30); `genLevelCtrl` 0x0011 := 0xff (0x20), 0x0010 := 0x0a (0x21) and 0x4000 := 0xff (0x20). Each write request carries exactly one attribute and is immediately read back. The C-ZB-DM204 and C203 bodies (lines 146-157, 322-333) are the same sequence. |
| `Candeo.DimmerExtendsSwitchModule` | src/devices/candeo.ts:84-132 | The dimmer sequence starts with the switch module's first two requests and ends with the same switch-type read. |
| `Candeo.ConfigureSm205TwoGang` | src/devices/candeo.ts:292-301 | Five requests on endpoints 1, 1, 2, 2 and 11 of one device. Request 0 writes `genOnOff` 16387 := 0xff (type 0x30), and request 1 reads 16387 back. Endpoint 2 gets identical operations, so these are the only two writes. Endpoint 11 gets the manufacturer-scoped 0x8803 read. |
| `Candeo.TwoGangStopsAtEndpoint2` | src/devices/candeo.ts:292-301 | A rejected write on endpoint 2 leaves endpoint 1 configured, and endpoint 11 is never reached. |

## Left out

- Network round trips, `async`/`await` scheduling, timeouts and the values of read responses. A request is only acknowledged or rejected.
- The device catalog: fingerprints, `exposes`, the `m.*` extensions (`m.light`, `m.onOff`, `m.electricityMeter`, `m.illuminance`, `m.deviceEndpoints`), `fz.ignore_genOta`, and the registration fields of the converters (`cluster`, `type`, `key`). These are declarative data with no behaviour of their own. `src/devices/nous.ts` is not part of this model. It only uses the layer: its configure bodies call the `bind` helper with a single cluster or delegate to a Tuya helper.
- The message dispatcher that selects converters by cluster and frame type. `Candeo.SwitchTypeFromZigbee` receives the frame's data map directly.
- `Candeo.LuxScale`: IEEE-754 behaviour (rounding, NaN, overflow) and the real `10 **` are not modelled. The exponent is a parameter, so results are stated relative to it.
- `Candeo.SwitchTypeFromZigbee`: values are integers and keys are `Key`s. JavaScript's coercion of the key `"34819"` to the same property as `0x8803`, and non-numeric values, are not modelled. Plain-object prototype keys are excluded from the two tables.
- `Candeo.ResolveSwitchType`: the parse is exact on unbounded integers. JavaScript loses precision above 2^53 and yields `-0` for "-0". A parsed value outside 0..255 is written as given, as in the source; what the transport does with it is outside the model.
- `Reporting.DefaultsWellFormed`: states the table-wide facts listed above. The literal defaults of each quantity are stated only for temperature (`Reporting.TemperatureDefaults`) and the battery quantities (`Reporting.BatteryConfigureThenRead`). The rest are in the `Reporting.Defaults` table itself.
- `Reporting.Payload`: `change` is an integer or null. The override type is not part of this model; its fields are optional intervals and an optional integer threshold.
- `Reporting.ReadElectricalMeasurementMultiplierDivisors`: the source's default `readFrequencyAttrs = false` has no Dafny counterpart. The flag is always passed, and `false` gives the default behaviour.
- The values of `repInterval.HOUR`, `MAX`, `MINUTE` and `MINUTES_5` are defined outside the modelled files and are kept symbolic.
