/**
 * The profile's identifiers: parameter ids, 16-bit UUIDs of the service and
 * its characteristics, and the status codes its operations return.
 */
module ProfileDefs {
  import opened Bytes

  /** bStatus_t: a one-byte status code. */
  type Status = uint8

  // Status codes of the BLE stack (bStatus_t).
  const Success: Status := 0x00
  const Failure: Status := 0x01
  const InvalidParameter: Status := 0x02
  const AlreadyInRequestedMode: Status := 0x11
  const InvalidRange: Status := 0x18

  // Attribute Protocol error codes, Bluetooth Core Specification Vol 3 Part F section 3.4.1.1.
  const AttErrInvalidHandle: Status := 0x01
  const AttErrAttrNotFound: Status := 0x0A
  const AttErrAttrNotLong: Status := 0x0B
  const AttErrInvalidValueSize: Status := 0x0D

  // Characteristic UUIDs.
  const DetectionUuid: uint16 := 0x2BAD
  const RangeUuid: uint16 := 0x2BB1
  const SensitivityUuid: uint16 := 0x2BB2
  const TimeoutUuid: uint16 := 0x2BB3
  /** The Client Characteristic Configuration descriptor, a Bluetooth assigned number. */
  const ClientCharCfgUuid: uint16 := 0x2902

  /** The four profile parameters. */
  datatype ParamId = Detection | Range | Sensitivity | Timeout

  /** The wire id of a parameter (PROXIMITYPROFILE_DETECTION .. PROXIMITYPROFILE_TIMEOUT). */
  function Id(p: ParamId): uint8 {
    match p
    case Detection => 0
    case Range => 1
    case Sensitivity => 2
    case Timeout => 3
  }

  /** The parameter a wire id names, if any. */
  function ParamOf(id: uint8): (r: Option<ParamId>)
    ensures r.Some? <==> id < 4
    ensures r.Some? ==> Id(r.value) == id
  {
    if id == 0 then Some(Detection)
    else if id == 1 then Some(Range)
    else if id == 2 then Some(Sensitivity)
    else if id == 3 then Some(Timeout)
    else None
  }

  /** Every parameter's wire id names that parameter, and distinct parameters have distinct ids. */
  lemma IdRoundTrip(p: ParamId, q: ParamId)
    ensures ParamOf(Id(p)) == Some(p)
    ensures Id(p) == Id(q) ==> p == q
  {
  }

  /** The characteristic UUID that carries a parameter. */
  function UuidOf(p: ParamId): uint16 {
    match p
    case Detection => DetectionUuid
    case Range => RangeUuid
    case Sensitivity => SensitivityUuid
    case Timeout => TimeoutUuid
  }

  /** The parameter's native width in bytes: uint8 or uint16. */
  function Width(p: ParamId): (w: nat)
    ensures w == 1 || w == 2
    ensures p == Detection || p == Sensitivity ==> w == 1
    ensures p == Range || p == Timeout ==> w == 2
  {
    if p == Range || p == Timeout then 2 else 1
  }

  /** One more than the largest value of the parameter's native width. */
  function Limit(p: ParamId): nat {
    if Width(p) == 1 then 0x100 else 0x1_0000
  }

  datatype Option<T> = None | Some(value: T)

  /** A value or the status code that explains its absence. */
  datatype Result<T> = Ok(value: T) | Err(status: Status)
}
