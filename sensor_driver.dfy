/**
 * The presence sensor driver, seen only through its control interface.
 * Its implementation is not part of this model: the driver is an abstract
 * state (running or not, and its range, sensitivity and presence timeout)
 * together with the trace of every control call it has received.
 */
module SensorDriver {
  import opened Bytes

  const MinSensitivity: uint8 := 1
  const MaxSensitivity: uint8 := 6

  const MinRange: uint16 := 20
  const MaxRange: uint16 := 200

  predicate RangeAllowed(r: uint16) { MinRange <= r <= MaxRange }

  predicate SensitivityAllowed(s: uint16) { MinSensitivity <= s <= MaxSensitivity }

  /** One control call made to the driver. */
  datatype SensorCall =
    | Start
    | Stop
    | SetRange(range: uint16)
    | SetSensitivity(sensitivity: uint8)
    | SetPresenceTimeout(timeout: uint16)

  /** A setter call whose argument the driver's documented bounds allow (start, stop and the timeout carry none). */
  predicate CallInBounds(c: SensorCall) {
    (c.SetRange? ==> RangeAllowed(c.range)) &&
    (c.SetSensitivity? ==> SensitivityAllowed(c.sensitivity))
  }

  datatype Driver = Driver(
    running: bool,
    range: uint16,
    sensitivity: uint8,
    timeout: uint16,
    trace: seq<SensorCall>)
  {
    /** Range and sensitivity lie within the bounds the application enforces. */
    predicate InBounds() {
      RangeAllowed(range) && SensitivityAllowed(sensitivity)
    }
  }

  /** The effect of one call: the call is recorded and the matching part of the state changes. */
  function ApplyCall(d: Driver, c: SensorCall): (r: Driver)
    ensures r.trace == d.trace + [c]
  {
    var d' := d.(trace := d.trace + [c]);
    match c
    case Start => d'.(running := true)
    case Stop => d'.(running := false)
    case SetRange(x) => d'.(range := x)
    case SetSensitivity(x) => d'.(sensitivity := x)
    case SetPresenceTimeout(x) => d'.(timeout := x)
  }

  /** The effect of a sequence of calls made in order. */
  function ApplyCalls(d: Driver, cs: seq<SensorCall>): (r: Driver)
    ensures r.trace == d.trace + cs
    decreases |cs|
  {
    if cs == [] then d
    else
      var r := ApplyCalls(ApplyCall(d, cs[0]), cs[1..]);
      assert d.trace + [cs[0]] + cs[1..] == d.trace + cs;
      r
  }

  /** Calls whose setter arguments are all within bounds keep a driver that starts in bounds in bounds. */
  lemma {:induction false} ApplyCallsKeepsBounds(d: Driver, cs: seq<SensorCall>)
    requires d.InBounds()
    requires forall i :: 0 <= i < |cs| ==> CallInBounds(cs[i])
    ensures ApplyCalls(d, cs).InBounds()
    decreases |cs|
  {
    if cs != [] {
      assert CallInBounds(cs[0]);
      ApplyCallsKeepsBounds(ApplyCall(d, cs[0]), cs[1..]);
    }
  }

  /** The sensor as the application holds it: the driver's state, updated in place by each call. */
  class Sensor {
    var running: bool
    var range: uint16
    var sensitivity: uint8
    var timeout: uint16
    var trace: seq<SensorCall>

    function State(): Driver
      reads this
    {
      Driver(running, range, sensitivity, timeout, trace)
    }

    /** A stopped driver with the given configuration and no calls yet. */
    constructor (range: uint16, sensitivity: uint8, timeout: uint16)
      ensures State() == Driver(false, range, sensitivity, timeout, [])
    {
      this.running := false;
      this.range := range;
      this.sensitivity := sensitivity;
      this.timeout := timeout;
      this.trace := [];
    }

    /** startSensor() */
    method Start()
      modifies this
      ensures State() == ApplyCall(old(State()), SensorCall.Start)
    {
      running := true;
      trace := trace + [SensorCall.Start];
    }

    /** stopSensor() */
    method Stop()
      modifies this
      ensures State() == ApplyCall(old(State()), SensorCall.Stop)
    {
      running := false;
      trace := trace + [SensorCall.Stop];
    }

    /** setRange(range) */
    method SetRange(x: uint16)
      modifies this
      ensures State() == ApplyCall(old(State()), SensorCall.SetRange(x))
    {
      range := x;
      trace := trace + [SensorCall.SetRange(x)];
    }

    /** setSensitivity(sens) */
    method SetSensitivity(x: uint8)
      modifies this
      ensures State() == ApplyCall(old(State()), SensorCall.SetSensitivity(x))
    {
      sensitivity := x;
      trace := trace + [SensorCall.SetSensitivity(x)];
    }

    /** setPresenceTimeout(tmout) */
    method SetPresenceTimeout(x: uint16)
      modifies this
      ensures State() == ApplyCall(old(State()), SensorCall.SetPresenceTimeout(x))
    {
      timeout := x;
      trace := trace + [SensorCall.SetPresenceTimeout(x)];
    }
  }
}
