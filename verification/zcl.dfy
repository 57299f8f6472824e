/** Vocabulary shared by the attribute layer: identifiers, reporting payloads and
    the requests a device endpoint can be asked to perform.

    The endpoint itself is opaque. The model only records which requests are
    issued to it, in which order; whether a request is acknowledged is decided
    by the transport (see module Session). */
module Zcl {

  datatype Option<+T> = None | Some(value: T) {
    /** The carried value, or `default` when there is none. */
    function GetOr(default: T): T {
      match this
      case Some(v) => v
      case None => default
    }
  }

  /** A cluster or attribute identifier: a symbolic name known to the cluster
      library, or a raw numeric id (vendor-specific attributes have no name). */
  datatype Key = Name(name: string) | Code(code: int)

  /** A reporting interval: literal seconds, or one of the library's named
      interval constants, whose values are not part of this model. */
  datatype Interval = Seconds(seconds: int) | Hour | Max | Minute | Minutes5

  /** One reporting-configuration record. `reportableChange == None` is the
      source's `null` (no change threshold). */
  datatype ReportingPayload = ReportingPayload(
    attribute: Key,
    minimumReportInterval: Interval,
    maximumReportInterval: Interval,
    reportableChange: Option<int>)

  /** A number as it reaches the wire: an integer, or NaN when an unparsable
      string was converted. */
  datatype WireNumber = Finite(n: int) | NaN

  /** One entry `{attribute: {value, type}}` of a write request. */
  datatype WriteRecord = WriteRecord(attribute: Key, value: WireNumber, dataType: int)

  /** An endpoint of a device: `getEndpoint(id)` on device `device`. */
  datatype EndpointRef = EndpointRef(device: nat, id: nat)

  /** The four endpoint operations. `manufacturerCode == None` is a request
      without vendor scoping. */
  datatype Op =
    | Read(cluster: Key, attributes: seq<Key>, manufacturerCode: Option<int>)
    | Write(cluster: Key, records: seq<WriteRecord>, manufacturerCode: Option<int>)
    | Bind(cluster: Key, target: EndpointRef)
    | ConfigureReporting(cluster: Key, payloads: seq<ReportingPayload>)

  /** An operation addressed to one endpoint. */
  datatype Request = Request(endpoint: EndpointRef, op: Op)
}
