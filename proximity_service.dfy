/**
 * The proximity GATT profile: the four characteristic values it owns
 * (detection, range, sensitivity, timeout), the typed parameter store over
 * them, the attribute read and write callbacks the BLE stack invokes, the
 * registration of the application's change callback, and the connection
 * handlers that start and stop the sensor.
 */
module ProximityService {
  import opened Bytes
  import opened ProfileDefs
  import SensorDriver

  /** The four characteristic values, as the profile's module variables hold them. */
  datatype Characteristics = Characteristics(
    detection: uint8,
    range: uint16,
    sensitivity: uint8,
    timeout: uint16)

  /** The stored value of one parameter. */
  function Field(c: Characteristics, p: ParamId): (x: uint16)
    ensures x < Limit(p)
  {
    match p
    case Detection => c.detection
    case Range => c.range
    case Sensitivity => c.sensitivity
    case Timeout => c.timeout
  }

  /** The store with one parameter replaced. */
  function WithParam(c: Characteristics, p: ParamId, x: uint16): (r: Characteristics)
    requires x < Limit(p)
    ensures Field(r, p) == x
    ensures forall q :: q != p ==> Field(r, q) == Field(c, q)
  {
    match p
    case Detection => c.(detection := x)
    case Range => c.(range := x)
    case Sensitivity => c.(sensitivity := x)
    case Timeout => c.(timeout := x)
  }

  /**
   * The value setParameter reads through its `void *value` argument when that
   * points at the 16-bit integer `value`: a 1-byte parameter reads the byte
   * at the lower address, which on this little-endian target is the low byte.
   */
  function ReadAtWidth(value: uint16, p: ParamId): (x: uint16)
    ensures x < Limit(p)
    ensures value < Limit(p) ==> x == value
  {
    if Width(p) == 1 then Lo(value) else value
  }

  /** The parameter a 16-bit characteristic UUID carries, if any. */
  function ParamOfUuid(u: uint16): (r: Option<ParamId>)
    ensures r.Some? ==> UuidOf(r.value) == u
    ensures r.None? ==> forall p :: UuidOf(p) != u
  {
    if u == DetectionUuid then Some(Detection)
    else if u == RangeUuid then Some(Range)
    else if u == SensitivityUuid then Some(Sensitivity)
    else if u == TimeoutUuid then Some(Timeout)
    else None
  }

  /** getParameter: the stored value of the parameter an id names, or INVALIDPARAMETER. */
  function GetParameter(c: Characteristics, id: uint8): (r: Result<uint16>)
    ensures r.Ok? <==> id < 4
    ensures r.Err? ==> r.status == InvalidParameter
    ensures r.Ok? ==> r.value < Limit(ParamOf(id).value)
  {
    match ParamOf(id)
    case None => Err(InvalidParameter)
    case Some(p) => Ok(Field(c, p))
  }

  /**
   * The status setParameter returns: SUCCESS exactly when the id names a
   * parameter and the length is that parameter's native width, INVALIDPARAMETER
   * for an unknown id and bleInvalidRange for a wrong length.
   */
  function SetParameterStatus(id: uint8, len: uint8): (st: Status)
    ensures st == Success <==> id < 4 && len == Width(ParamOf(id).value)
    ensures st == InvalidParameter <==> id >= 4
    ensures st == Success || st == InvalidParameter || st == InvalidRange
  {
    match ParamOf(id)
    case None => InvalidParameter
    case Some(p) => if len as nat == Width(p) then Success else InvalidRange
  }

  /** After a successful set of a value of the parameter's width, get returns that value and every other parameter is as before. */
  lemma SetThenGet(c: Characteristics, p: ParamId, value: uint16)
    requires value < Limit(p)
    ensures SetParameterStatus(Id(p), Width(p) as uint8) == Success
    ensures GetParameter(WithParam(c, p, ReadAtWidth(value, p)), Id(p)) == Ok(value)
    ensures forall q :: q != p ==> GetParameter(WithParam(c, p, ReadAtWidth(value, p)), Id(q)) == GetParameter(c, Id(q))
  {
    IdRoundTrip(p, p);
    forall q | q != p
      ensures GetParameter(WithParam(c, p, ReadAtWidth(value, p)), Id(q)) == GetParameter(c, Id(q))
    {
      IdRoundTrip(q, q);
    }
  }

  /** The type of an attribute: a 16-bit UUID, or a 128-bit one (which this profile never declares). */
  datatype AttrType = Uuid16(uuid: uint16) | Uuid128

  /**
   * What a read callback hands back: its status and, when it sets the length,
   * the bytes it copies out (the length is their count). `None` means the
   * callback returned before touching the length.
   */
  datatype ReadResult = ReadResult(status: Status, data: Option<seq<uint8>>)

  /** The bytes of a stored value, in memory order and at the parameter's native width. */
  function ValueBytes(x: uint16, p: ParamId): (b: seq<uint8>)
    requires x < Limit(p)
    ensures |b| == Width(p)
    ensures Width(p) == 1 ==> b == [x]
    ensures Width(p) == 2 ==> b == [Lo(x), Hi(x)]
  {
    if Width(p) == 1 then [x] else Encode16(x)
  }

  /** A one- or two-byte little-endian payload as a number. */
  function Decode(b: seq<uint8>): (x: uint16)
    requires |b| == 1 || |b| == 2
    ensures |b| == 1 ==> x == b[0]
    ensures |b| == 2 ==> x == b[0] as nat + 0x100 * (b[1] as nat)
  {
    if |b| == 1 then b[0] else Build16(b[0], b[1])
  }

  /** Decoding the bytes of a stored value gives the value back. */
  lemma DecodeValueBytes(x: uint16, p: ParamId)
    requires x < Limit(p)
    ensures Decode(ValueBytes(x, p)) == x
  {
    if Width(p) == 2 {
      Encode16RoundTrip(x, 0, 0);
    }
  }

  /**
   * readAttrCB: a read at a non-zero offset is refused as not long; a
   * characteristic value is copied out at its native width; any other 16-bit
   * UUID is not found and a 128-bit UUID is an invalid handle, both with
   * length 0.
   */
  function ReadAttr(c: Characteristics, attr: AttrType, offset: uint16): (r: ReadResult)
    ensures offset > 0 ==> r == ReadResult(AttErrAttrNotLong, None)
    ensures offset == 0 && attr.Uuid128? ==> r == ReadResult(AttErrInvalidHandle, Some([]))
    ensures offset == 0 && attr.Uuid16? && ParamOfUuid(attr.uuid).None? ==>
      r == ReadResult(AttErrAttrNotFound, Some([]))
    ensures offset == 0 && attr.Uuid16? && ParamOfUuid(attr.uuid).Some? ==>
      var p := ParamOfUuid(attr.uuid).value;
      r.status == Success && r.data.Some? && |r.data.value| == Width(p) &&
      r.data.value[0] == Lo(Field(c, p)) && (Width(p) == 2 ==> r.data.value[1] == Hi(Field(c, p)))
  {
    if offset > 0 then ReadResult(AttErrAttrNotLong, None)
    else match attr
      case Uuid128 => ReadResult(AttErrInvalidHandle, Some([]))
      case Uuid16(u) =>
        match ParamOfUuid(u)
        case None => ReadResult(AttErrAttrNotFound, Some([]))
        case Some(p) =>
          DecodeValueBytes(Field(c, p), p);
          ReadResult(Success, Some(ValueBytes(Field(c, p), p)))
  }

  /** The three characteristics a peer may write. */
  predicate IsWritableUuid(u: uint16) {
    u == RangeUuid || u == SensitivityUuid || u == TimeoutUuid
  }

  /**
   * The status writeAttrCB returns. For the three writable characteristics:
   * a 2-byte write to Sensitivity is refused as an invalid size whatever its
   * offset; otherwise a non-zero offset is refused as not long, and a length
   * other than 1 or 2 as an invalid size. A write to the configuration
   * descriptor returns what the stack's descriptor handling returned; any
   * other 16-bit UUID is not found and a 128-bit UUID is an invalid handle.
   */
  function WriteStatus(attr: AttrType, len: nat, offset: uint16, cccStatus: Status): (st: Status)
    ensures attr == Uuid16(SensitivityUuid) && len == 2 ==> st == AttErrInvalidValueSize
    ensures attr.Uuid16? && IsWritableUuid(attr.uuid) ==>
      (st == Success <==> offset == 0 && (len == 1 || (len == 2 && attr.uuid != SensitivityUuid)))
    ensures attr.Uuid16? && IsWritableUuid(attr.uuid) && offset != 0 && !(attr.uuid == SensitivityUuid && len == 2) ==>
      st == AttErrAttrNotLong
    ensures attr.Uuid16? && IsWritableUuid(attr.uuid) && offset == 0 && len != 1 && len != 2 ==>
      st == AttErrInvalidValueSize
    ensures attr == Uuid16(ClientCharCfgUuid) ==> st == cccStatus
    ensures attr.Uuid16? && !IsWritableUuid(attr.uuid) && attr.uuid != ClientCharCfgUuid ==> st == AttErrAttrNotFound
    ensures attr.Uuid128? ==> st == AttErrInvalidHandle
  {
    match attr
    case Uuid128 => AttErrInvalidHandle
    case Uuid16(u) =>
      if IsWritableUuid(u) then
        if u == SensitivityUuid && len == 2 then AttErrInvalidValueSize
        else if offset != 0 then AttErrAttrNotLong
        else if len != 1 && len != 2 then AttErrInvalidValueSize
        else Success
      else if u == ClientCharCfgUuid then cccStatus
      else AttErrAttrNotFound
  }

  /**
   * The stored values after writeAttrCB. Range and Timeout are cleared first,
   * so they hold the decoded payload when the write is accepted and 0 when it
   * is refused; Sensitivity takes the payload's byte only when the write is
   * accepted. Nothing else changes.
   */
  function WriteEffect(c: Characteristics, attr: AttrType, payload: seq<uint8>, offset: uint16): (r: Characteristics)
    ensures r.detection == c.detection
    ensures attr.Uuid128? || !IsWritableUuid(attr.uuid) ==> r == c
    ensures attr == Uuid16(RangeUuid) ==>
      r.sensitivity == c.sensitivity && r.timeout == c.timeout &&
      r.range == if WriteStatus(attr, |payload|, offset, Success) == Success then Decode(payload) else 0
    ensures attr == Uuid16(TimeoutUuid) ==>
      r.range == c.range && r.sensitivity == c.sensitivity &&
      r.timeout == if WriteStatus(attr, |payload|, offset, Success) == Success then Decode(payload) else 0
    ensures attr == Uuid16(SensitivityUuid) ==>
      r.range == c.range && r.timeout == c.timeout &&
      r.sensitivity == if WriteStatus(attr, |payload|, offset, Success) == Success then payload[0] else c.sensitivity
  {
    match attr
    case Uuid128 => c
    case Uuid16(u) =>
      var accepted := IsWritableUuid(u) && WriteStatus(attr, |payload|, offset, Success) == Success;
      if u == RangeUuid then c.(range := if accepted then Decode(payload) else 0)
      else if u == TimeoutUuid then c.(timeout := if accepted then Decode(payload) else 0)
      else if u == SensitivityUuid && accepted then c.(sensitivity := payload[0])
      else c
  }

  /** The bytes a read returns after a payload has been stored at a parameter's native width: a short payload is padded with zero. */
  function Padded(payload: seq<uint8>, p: ParamId): seq<uint8>
    requires 1 <= |payload| <= Width(p)
  {
    if |payload| < Width(p) then payload + [0] else payload
  }

  /**
   * An accepted write followed by a read of the same characteristic returns
   * the written bytes, zero-padded to the native width: no stale high byte of
   * an earlier 2-byte value shows through a later 1-byte write.
   */
  lemma {:induction false} ReadAfterWrite(c: Characteristics, p: ParamId, payload: seq<uint8>)
    requires p != Detection
    requires WriteStatus(Uuid16(UuidOf(p)), |payload|, 0, Success) == Success
    ensures 1 <= |payload| <= Width(p)
    ensures ReadAttr(WriteEffect(c, Uuid16(UuidOf(p)), payload, 0), Uuid16(UuidOf(p)), 0) ==
      ReadResult(Success, Some(Padded(payload, p)))
  {
    var attr := Uuid16(UuidOf(p));
    var c' := WriteEffect(c, attr, payload, 0);
    var x := Decode(payload);
    assert Field(c', p) == x;
    assert ReadAttr(c', attr, 0) == ReadResult(Success, Some(ValueBytes(x, p)));
    assert ValueBytes(x, p) == Padded(payload, p) by {
      if p == Sensitivity {
        assert [payload[0]] == payload;
      } else if |payload| == 1 {
        assert Lo(x) == payload[0] && Hi(x) == 0;
      } else {
        assert Lo(x) == payload[0] && Hi(x) == payload[1];
      }
    }
  }

  /** A cleared Range or Timeout reads back as two zero bytes. */
  lemma {:induction false} ReadOfClearedValue(c: Characteristics, p: ParamId)
    requires p == Range || p == Timeout
    requires Field(c, p) == 0
    ensures ReadAttr(c, Uuid16(UuidOf(p)), 0) == ReadResult(Success, Some([0, 0]))
  {
    var attr := Uuid16(UuidOf(p));
    assert ReadAttr(c, attr, 0) == ReadResult(Success, Some(ValueBytes(0, p)));
    assert ValueBytes(0, p) == [0, 0] by {
      assert Lo(0) == 0 && Hi(0) == 0;
    }
  }



  /** A refused write to Range or Timeout leaves the value 0: it reads back as two zero bytes. */
  lemma {:induction false} RefusedWriteClears(c: Characteristics, p: ParamId, payload: seq<uint8>, offset: uint16)
    requires p == Range || p == Timeout
    requires WriteStatus(Uuid16(UuidOf(p)), |payload|, offset, Success) != Success
    ensures Field(WriteEffect(c, Uuid16(UuidOf(p)), payload, offset), p) == 0
    ensures ReadAttr(WriteEffect(c, Uuid16(UuidOf(p)), payload, offset), Uuid16(UuidOf(p)), 0) ==
      ReadResult(Success, Some([0, 0]))
  {
    var c' := WriteEffect(c, Uuid16(UuidOf(p)), payload, offset);
    assert Field(c', p) == 0 by {
      if p == Range {
        assert c'.range == 0;
      } else {
        assert c'.timeout == 0;
      }
    }
    ReadOfClearedValue(c', p);
  }

  /** A refused write to Sensitivity changes nothing. */
  lemma RefusedWriteKeepsSensitivity(c: Characteristics, payload: seq<uint8>, offset: uint16)
    requires WriteStatus(Uuid16(SensitivityUuid), |payload|, offset, Success) != Success
    ensures WriteEffect(c, Uuid16(SensitivityUuid), payload, offset) == c
  {
  }

  /**
   * The parameter id writeAttrCB hands to the application's change callback,
   * chosen from the UUID alone whatever the write's status: a writable
   * characteristic maps to its own parameter, the configuration descriptor
   * to DETECTION, and anything else to no callback.
   */
  function NotifyApp(attr: AttrType): (r: Option<uint8>)
    ensures forall p :: p != Detection && attr == Uuid16(UuidOf(p)) ==> r == Some(Id(p))
    ensures attr == Uuid16(ClientCharCfgUuid) ==> r == Some(Id(Detection))
    ensures r.Some? <==> attr.Uuid16? && (IsWritableUuid(attr.uuid) || attr.uuid == ClientCharCfgUuid)
  {
    match attr
    case Uuid128 => None
    case Uuid16(u) =>
      if u == RangeUuid then Some(Id(Range))
      else if u == SensitivityUuid then Some(Id(Sensitivity))
      else if u == TimeoutUuid then Some(Id(Timeout))
      else if u == ClientCharCfgUuid then Some(Id(Detection))
      else None
  }

  /** The application's callback table: whether its change callback pointer is set. */
  datatype AppCallbacks = AppCallbacks(hasChangeCallback: bool)

  /** The profile's module state: the four characteristic values, the registered callbacks and the detection notifications handed to the stack. */
  class Profile {
    var detection: uint8
    var range: uint16
    var sensitivity: uint8
    var timeout: uint16
    var appCBs: Option<AppCallbacks>
    /** Every detection value handed to the stack's notification processing, in order. */
    var notified: seq<uint8>

    function Values(): Characteristics
      reads this
    {
      Characteristics(detection, range, sensitivity, timeout)
    }

    /** Whether writeAttrCB may raise the application's change callback. */
    predicate ChangeCallbackRegistered()
      reads this
    {
      appCBs.Some? && appCBs.value.hasChangeCallback
    }

    /** The state at start-up: every value 0 and no callbacks registered. */
    constructor ()
      ensures Values() == Characteristics(0, 0, 0, 0)
      ensures appCBs == None && notified == []
    {
      detection, range, sensitivity, timeout := 0, 0, 0, 0;
      appCBs := None;
      notified := [];
    }

    /**
     * registerAppCBs: a callback table is stored and SUCCESS returned; a null
     * table is refused with bleAlreadyInRequestedMode and nothing changes.
     */
    method RegisterAppCBs(cbs: Option<AppCallbacks>) returns (status: Status)
      modifies this`appCBs
      ensures cbs.Some? ==> status == Success && appCBs == cbs
      ensures cbs.None? ==> status == AlreadyInRequestedMode && appCBs == old(appCBs)
    {
      if cbs.Some? {
        appCBs := cbs;
        status := Success;
      } else {
        status := AlreadyInRequestedMode;
      }
    }

    /**
     * setParameter: stores the value when the id and length are right, and
     * leaves every value alone otherwise. A stored detection value is handed to
     * the stack's notification processing.
     */
    method SetParameter(id: uint8, len: uint8, value: uint16) returns (status: Status)
      modifies this`detection, this`range, this`sensitivity, this`timeout, this`notified
      ensures status == SetParameterStatus(id, len)
      ensures status == Success ==>
        Values() == WithParam(old(Values()), ParamOf(id).value, ReadAtWidth(value, ParamOf(id).value))
      ensures status != Success ==> Values() == old(Values())
      ensures notified == old(notified) + (if status == Success && id == Id(Detection) then [Lo(value)] else [])
    {
      status := Success;
      if id == Id(Detection) {
        if len == 1 {
          detection := Lo(value);
          notified := notified + [detection];
        } else {
          status := InvalidRange;
        }
      } else if id == Id(Range) {
        if len == 2 {
          range := value;
        } else {
          status := InvalidRange;
        }
      } else if id == Id(Sensitivity) {
        if len == 1 {
          sensitivity := Lo(value);
        } else {
          status := InvalidRange;
        }
      } else if id == Id(Timeout) {
        if len == 2 {
          timeout := value;
        } else {
          status := InvalidRange;
        }
      } else {
        status := InvalidParameter;
      }
    }

    /**
     * writeAttrCB, with the stored value updated in place byte by byte. The
     * status of a configuration-descriptor write is whatever the stack's
     * descriptor handling returns, given here as `cccStatus`. `raised` is the
     * parameter id passed on to the application's change callback, if any.
     */
    method WriteAttr(attr: AttrType, payload: seq<uint8>, offset: uint16, cccStatus: Status)
      returns (status: Status, raised: Option<uint8>)
      modifies this`range, this`sensitivity, this`timeout
      ensures status == WriteStatus(attr, |payload|, offset, cccStatus)
      ensures Values() == WriteEffect(old(Values()), attr, payload, offset)
      ensures raised == if ChangeCallbackRegistered() then NotifyApp(attr) else None
    {
      status := Success;
      var notifyApp: Option<uint8> := None;
      match attr {
        case Uuid16(uuid) =>
          if IsWritableUuid(uuid) {
            if offset == 0 {
              if |payload| != 1 && |payload| != 2 {
                status := AttErrInvalidValueSize;
              }
            } else {
              status := AttErrAttrNotLong;
            }
            if uuid != SensitivityUuid {
              // Clear both bytes, so that a 1-byte write leaves no stale high byte.
              if uuid == RangeUuid {
                range := SetLowByte(range, 0);
                range := SetHighByte(range, 0);
              } else {
                timeout := SetLowByte(timeout, 0);
                timeout := SetHighByte(timeout, 0);
              }
            } else if |payload| == 2 {
              status := AttErrInvalidValueSize;
            }
            if status == Success {
              if |payload| == 1 {
                // One byte written at the value's lower address.
                if uuid == RangeUuid {
                  range := SetLowByte(range, payload[0]);
                } else if uuid == TimeoutUuid {
                  timeout := SetLowByte(timeout, payload[0]);
                } else {
                  sensitivity := payload[0];
                }
              } else {
                // A 16-bit store; Sensitivity never gets here, its 2-byte writes were refused above.
                if uuid == RangeUuid {
                  range := Build16(payload[0], payload[1]);
                } else if uuid == TimeoutUuid {
                  timeout := Build16(payload[0], payload[1]);
                }
              }
            }
          } else if uuid == ClientCharCfgUuid {
            status := cccStatus;
          } else {
            status := AttErrAttrNotFound;
          }
          if uuid == RangeUuid {
            notifyApp := Some(Id(Range));
          } else if uuid == SensitivityUuid {
            notifyApp := Some(Id(Sensitivity));
          } else if uuid == TimeoutUuid {
            notifyApp := Some(Id(Timeout));
          } else if uuid == ClientCharCfgUuid {
            notifyApp := Some(Id(Detection));
          }
        case Uuid128 =>
          status := AttErrInvalidHandle;
      }
      raised := if ChangeCallbackRegistered() then notifyApp else None;
    }
  }

  /** on_connect: every connection starts the sensor. */
  method OnConnect(sensor: SensorDriver.Sensor)
    modifies sensor
    ensures sensor.State() == SensorDriver.ApplyCall(old(sensor.State()), SensorDriver.Start)
  {
    sensor.Start();
  }

  /** on_disconnect: the sensor is stopped exactly when the stack still counts an active link. */
  method OnDisconnect(sensor: SensorDriver.Sensor, numActive: nat)
    modifies sensor
    ensures numActive > 0 ==> sensor.State() == SensorDriver.ApplyCall(old(sensor.State()), SensorDriver.Stop)
    ensures numActive == 0 ==> sensor.State() == old(sensor.State())
  {
    if numActive > 0 {
      sensor.Stop();
    }
  }
}
