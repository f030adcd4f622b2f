/**
 * The application glue: the change callback that turns a peer's write into
 * sensor reconfiguration, the detection event handler that debounces sensor
 * reports into the Detection characteristic, and the start-up step that seeds
 * the profile's values from the driver.
 */
module AppProximity {
  import opened Bytes
  import opened ProfileDefs
  import opened SensorDriver
  import opened ProximityService

  /**
   * The value the change callback works on: getParameter writes the stored
   * value into a zero-initialised uint16, and an unknown id leaves it 0.
   */
  function ChangedValue(c: Characteristics, id: uint8): (x: uint16)
    ensures id < 4 ==> x == Field(c, ParamOf(id).value)
    ensures id >= 4 ==> x == 0
  {
    match GetParameter(c, id)
    case Ok(v) => v
    case Err(_) => 0
  }

  /**
   * The driver calls the change callback makes for parameter `id` when the
   * store holds `c`. An allowed Range or Sensitivity is applied by exactly one
   * stop, set, start cycle; a Timeout is pushed straight through; anything
   * else, an out-of-range value included, reaches the driver not at all. So
   * every setter call carries an allowed value.
   */
  function ChangeCalls(id: uint8, c: Characteristics): (calls: seq<SensorCall>)
    ensures forall i :: 0 <= i < |calls| ==> CallInBounds(calls[i])
    ensures id == Id(Range) ==>
      calls == if RangeAllowed(c.range) then [Stop, SetRange(c.range), Start] else []
    ensures id == Id(Sensitivity) ==>
      calls == if SensitivityAllowed(c.sensitivity) then [Stop, SetSensitivity(c.sensitivity), Start] else []
    ensures id == Id(Timeout) ==> calls == [SetPresenceTimeout(c.timeout)]
    ensures id != Id(Range) && id != Id(Sensitivity) && id != Id(Timeout) ==> calls == []
  {
    var v := ChangedValue(c, id);
    if id == Id(Range) then
      if MinRange <= v <= MaxRange then [Stop, SetRange(v), Start] else []
    else if id == Id(Sensitivity) then
      if MinSensitivity <= v <= MaxSensitivity then [Stop, SetSensitivity(v), Start] else []
    else if id == Id(Timeout) then
      [SetPresenceTimeout(v)]
    else
      []
  }

  /**
   * The store after the change callback: an out-of-range Range or Sensitivity
   * is overwritten with the driver's current value, which the peer then reads
   * back; everything else stays as written. When the driver is within bounds,
   * the parameter just handled ends up within bounds in the store too.
   */
  function EchoBack(id: uint8, c: Characteristics, d: Driver): (r: Characteristics)
    ensures id == Id(Range) ==> r == c.(range := if RangeAllowed(c.range) then c.range else d.range)
    ensures id == Id(Sensitivity) ==>
      r == c.(sensitivity := if SensitivityAllowed(c.sensitivity) then c.sensitivity else d.sensitivity)
    ensures id != Id(Range) && id != Id(Sensitivity) ==> r == c
    ensures d.InBounds() && id == Id(Range) ==> RangeAllowed(r.range)
    ensures d.InBounds() && id == Id(Sensitivity) ==> SensitivityAllowed(r.sensitivity)
  {
    var v := ChangedValue(c, id);
    if id == Id(Range) && !(MinRange <= v <= MaxRange) then
      WithParam(c, Range, d.range)
    else if id == Id(Sensitivity) && !(MinSensitivity <= v <= MaxSensitivity) then
      WithParam(c, Sensitivity, d.sensitivity)
    else
      c
  }

  /**
   * A peer's accepted write to Range followed by the change callback: an
   * allowed value is stored and applied by one stop, set, start cycle; any
   * other value never reaches the driver, and the store ends up holding the
   * driver's current range instead.
   */
  lemma PeerRangeWrite(c: Characteristics, d: Driver, payload: seq<uint8>)
    requires |payload| == 1 || |payload| == 2
    ensures WriteStatus(Uuid16(RangeUuid), |payload|, 0, Success) == Success
    ensures var written := WriteEffect(c, Uuid16(RangeUuid), payload, 0);
      var v := Decode(payload);
      written == c.(range := v) &&
      (RangeAllowed(v) ==>
        ChangeCalls(Id(Range), written) == [Stop, SetRange(v), Start] && EchoBack(Id(Range), written, d) == written) &&
      (!RangeAllowed(v) ==>
        ChangeCalls(Id(Range), written) == [] && EchoBack(Id(Range), written, d) == c.(range := d.range))
  {
  }

  /**
   * A peer's accepted write to Sensitivity (one byte) followed by the change
   * callback: an allowed value is applied by one stop, set, start cycle; any
   * other value is replaced in the store by the driver's sensitivity.
   */
  lemma PeerSensitivityWrite(c: Characteristics, d: Driver, b: uint8)
    ensures WriteStatus(Uuid16(SensitivityUuid), 1, 0, Success) == Success
    ensures var written := WriteEffect(c, Uuid16(SensitivityUuid), [b], 0);
      written == c.(sensitivity := b) &&
      (SensitivityAllowed(b) ==>
        ChangeCalls(Id(Sensitivity), written) == [Stop, SetSensitivity(b), Start] &&
        EchoBack(Id(Sensitivity), written, d) == written) &&
      (!SensitivityAllowed(b) ==>
        ChangeCalls(Id(Sensitivity), written) == [] &&
        EchoBack(Id(Sensitivity), written, d) == c.(sensitivity := d.sensitivity))
  {
  }

  /**
   * Range and Timeout are cleared before a write's status is checked, and the
   * change callback is raised whatever that status: a refused Timeout write
   * sets the driver's presence timeout to 0.
   */
  lemma RefusedTimeoutWriteZeroesDriver(c: Characteristics, payload: seq<uint8>, offset: uint16)
    requires WriteStatus(Uuid16(TimeoutUuid), |payload|, offset, Success) != Success
    ensures NotifyApp(Uuid16(TimeoutUuid)) == Some(Id(Timeout))
    ensures ChangeCalls(Id(Timeout), WriteEffect(c, Uuid16(TimeoutUuid), payload, offset)) == [SetPresenceTimeout(0)]
  {
  }

  /**
   * A refused Sensitivity write still raises the change callback, which
   * re-applies the stored sensitivity: one stop, set, start cycle with the old
   * value when it is allowed, and no call otherwise.
   */
  lemma RefusedSensitivityWriteReapplies(c: Characteristics, payload: seq<uint8>, offset: uint16)
    requires WriteStatus(Uuid16(SensitivityUuid), |payload|, offset, Success) != Success
    ensures NotifyApp(Uuid16(SensitivityUuid)) == Some(Id(Sensitivity))
    ensures ChangeCalls(Id(Sensitivity), WriteEffect(c, Uuid16(SensitivityUuid), payload, offset)) ==
      if SensitivityAllowed(c.sensitivity) then [Stop, SetSensitivity(c.sensitivity), Start] else []
  {
  }

  /** The driver after a series of change callbacks, the i-th raised for `steps[i].0` with the store holding `steps[i].1`. */
  function RunChanges(d: Driver, steps: seq<(uint8, Characteristics)>): Driver
    decreases |steps|
  {
    if steps == [] then d
    else RunChanges(ApplyCalls(d, ChangeCalls(steps[0].0, steps[0].1)), steps[1..])
  }

  /**
   * A driver whose range and sensitivity start within bounds stays within
   * bounds through any series of change callbacks, whatever the peer has
   * written into the store in between.
   */
  lemma {:induction false} ChangesKeepDriverInBounds(d: Driver, steps: seq<(uint8, Characteristics)>)
    requires d.InBounds()
    ensures RunChanges(d, steps).InBounds()
    decreases |steps|
  {
    if steps != [] {
      var calls := ChangeCalls(steps[0].0, steps[0].1);
      ApplyCallsKeepsBounds(d, calls);
      ChangesKeepDriverInBounds(ApplyCalls(d, calls), steps[1..]);
    }
  }

  /** The value last_detection holds after one detection event: it follows the event when it differs. */
  function NextLast(last: uint8, detection: uint8): uint8 {
    if last != detection then detection else last
  }

  /** last_detection after a series of detection events, starting from `last`. */
  function LastAfter(last: uint8, events: seq<uint8>): (r: uint8)
    ensures events != [] ==> r == events[|events| - 1]
    decreases |events|
  {
    if events == [] then last
    else NextLast(LastAfter(last, events[..|events| - 1]), events[|events| - 1])
  }

  /**
   * The indices of the events that update (and so notify) the Detection
   * characteristic, in the order the events arrive.
   */
  function Updates(last: uint8, events: seq<uint8>): (r: seq<nat>)
    ensures forall i :: i in r ==> i < |events|
    decreases |events|
  {
    if events == [] then []
    else
      var n := |events| - 1;
      Updates(last, events[..n]) + (if events[n] != LastAfter(last, events[..n]) then [n] else [])
  }

  /** Updates lists the updating events in the order they arrive, each once. */
  lemma {:induction false} UpdatesAscending(last: uint8, events: seq<uint8>)
    ensures forall j, k :: 0 <= j < k < |Updates(last, events)| ==> Updates(last, events)[j] < Updates(last, events)[k]
    decreases |events|
  {
    if events != [] {
      var n := |events| - 1;
      var init := events[..n];
      UpdatesAscending(last, init);
      var u := Updates(last, init);
      assert forall k :: 0 <= k < |u| ==> u[k] in u;
    }
  }

  /** The event before index i, or the starting value of last_detection for the first event. */
  function Previous(last: uint8, events: seq<uint8>, i: nat): uint8
    requires i < |events|
  {
    if i == 0 then last else events[i - 1]
  }

  /** Debounce, for one index: event i updates the characteristic exactly when it differs from the event before it. */
  lemma {:induction false} UpdatesMember(last: uint8, events: seq<uint8>, i: nat)
    ensures i in Updates(last, events) <==> i < |events| && events[i] != Previous(last, events, i)
    decreases |events|
  {
    if events != [] {
      var n := |events| - 1;
      var init := events[..n];
      var tail: seq<nat> := if events[n] != LastAfter(last, init) then [n] else [];
      assert Updates(last, events) == Updates(last, init) + tail;
      if i < n {
        UpdatesMember(last, init, i);
        assert events[i] == init[i];
        assert Previous(last, events, i) == Previous(last, init, i);
      } else if i == n {
        assert n !in Updates(last, init);
        assert n > 0 ==> LastAfter(last, init) == events[n - 1];
      } else {
        assert i !in Updates(last, init);
      }
    }
  }

  /**
   * Debounce: an event updates the Detection characteristic exactly when it
   * differs from the event before it (the first event is compared with the
   * starting value of last_detection).
   */
  lemma UpdatesAreChanges(last: uint8, events: seq<uint8>)
    ensures forall i: nat :: i in Updates(last, events) <==> i < |events| && events[i] != Previous(last, events, i)
  {
    forall i: nat
      ensures i in Updates(last, events) <==> i < |events| && events[i] != Previous(last, events, i)
    {
      UpdatesMember(last, events, i);
    }
  }

  /** With last_detection starting at 0, the events 0, 0, 1, 1, 0 update the characteristic at indices 2 and 4 only. */
  lemma DebounceExample()
    ensures Updates(0, [0, 0, 1, 1, 0]) == [2, 4]
  {
    var e: seq<uint8> := [0, 0, 1, 1, 0];
    assert e[..4] == [0, 0, 1, 1] && e[..4][..3] == [0, 0, 1] && e[..3][..2] == [0, 0];
    assert e[..2][..1] == [0] && e[..1][..0] == [];
    assert Updates(0, [0]) == [];
    assert Updates(0, [0, 0]) == [];
    assert Updates(0, [0, 0, 1]) == [2];
    assert Updates(0, [0, 0, 1, 1]) == [2];
  }

  /**
   * The application: the profile it registered with, the sensor it drives
   * and the last detection value it published.
   */
  class App {
    const profile: Profile
    const sensor: Sensor
    var lastDetection: uint8

    /** last_detection is a zero-initialised static. */
    constructor (profile: Profile, sensor: Sensor)
      ensures this.profile == profile && this.sensor == sensor
      ensures lastDetection == 0
    {
      this.profile := profile;
      this.sensor := sensor;
      lastDetection := 0;
    }

    /**
     * The RANGE case of Proximity_changeCB: an allowed range is applied by one
     * stop, set, start cycle; any other value is replaced in the store by the
     * range the driver reports.
     */
    method ChangeRange(newValue: uint16)
      modifies profile, sensor
      ensures sensor.State() == ApplyCalls(old(sensor.State()),
        if RangeAllowed(newValue) then [SensorCall.Stop, SensorCall.SetRange(newValue), SensorCall.Start] else [])
      ensures profile.Values() ==
        if RangeAllowed(newValue) then old(profile.Values()) else old(profile.Values()).(range := old(sensor.range))
      ensures profile.notified == old(profile.notified) && profile.appCBs == old(profile.appCBs)
    {
      if MinRange <= newValue <= MaxRange {
        ghost var d0 := sensor.State();
        sensor.Stop();
        sensor.SetRange(newValue);
        sensor.Start();
        CallsInOrder(d0, SensorCall.Stop, SensorCall.SetRange(newValue), SensorCall.Start);
      } else {
        var charRange := sensor.range;
        var _ := profile.SetParameter(Id(Range), 2, charRange);
      }
    }

    /**
     * The SENSITIVITY case of Proximity_changeCB: an allowed sensitivity is
     * applied by one stop, set, start cycle; any other value is replaced in the
     * store by the sensitivity the driver reports.
     */
    method ChangeSensitivity(newValue: uint16)
      modifies profile, sensor
      ensures sensor.State() == ApplyCalls(old(sensor.State()),
        if SensitivityAllowed(newValue) then [SensorCall.Stop, SensorCall.SetSensitivity(newValue), SensorCall.Start] else [])
      ensures profile.Values() ==
        if SensitivityAllowed(newValue) then old(profile.Values())
        else old(profile.Values()).(sensitivity := old(sensor.sensitivity))
      ensures profile.notified == old(profile.notified) && profile.appCBs == old(profile.appCBs)
    {
      if MinSensitivity <= newValue <= MaxSensitivity {
        ghost var d0 := sensor.State();
        sensor.Stop();
        sensor.SetSensitivity(newValue);
        sensor.Start();
        CallsInOrder(d0, SensorCall.Stop, SensorCall.SetSensitivity(newValue), SensorCall.Start);
      } else {
        var charSensitivity := sensor.sensitivity;
        var _ := profile.SetParameter(Id(Sensitivity), 1, charSensitivity);
      }
    }

    /** Proximity_changeCB */
    method ChangeCB(id: uint8)
      modifies profile, sensor
      ensures sensor.State() == ApplyCalls(old(sensor.State()), ChangeCalls(id, old(profile.Values())))
      ensures profile.Values() == EchoBack(id, old(profile.Values()), old(sensor.State()))
      ensures profile.notified == old(profile.notified) && profile.appCBs == old(profile.appCBs)
      ensures old(sensor.State()).InBounds() ==> sensor.State().InBounds()
    {
      ghost var d0 := sensor.State();
      ghost var c0 := profile.Values();
      var got := GetParameter(profile.Values(), id);
      var newValue: uint16 := if got.Ok? then got.value else 0;
      assert newValue == ChangedValue(c0, id);
      if id == Id(Range) {
        ChangeRange(newValue);
      } else if id == Id(Sensitivity) {
        ChangeSensitivity(newValue);
      } else if id == Id(Timeout) {
        sensor.SetPresenceTimeout(newValue);
        assert ApplyCalls(d0, [SensorCall.SetPresenceTimeout(newValue)]) == ApplyCall(d0, SensorCall.SetPresenceTimeout(newValue));
      }
      if d0.InBounds() {
        ApplyCallsKeepsBounds(d0, ChangeCalls(id, c0));
      }
    }

    /**
     * Proximity_on_proximity_evt: a detection value that differs from the last
     * one published is stored (which hands it to the stack for notification)
     * and becomes the last published value; a repeated value changes nothing.
     */
    method OnProximityEvt(detection: uint8)
      modifies this, profile
      ensures lastDetection == NextLast(old(lastDetection), detection) == detection
      ensures old(lastDetection) != detection ==>
        profile.Values() == old(profile.Values()).(detection := detection) &&
        profile.notified == old(profile.notified) + [detection]
      ensures old(lastDetection) == detection ==>
        profile.Values() == old(profile.Values()) && profile.notified == old(profile.notified)
      ensures profile.appCBs == old(profile.appCBs)
    {
      if lastDetection != detection {
        var _ := profile.SetParameter(Id(Detection), 1, detection);
        lastDetection := detection;
      }
    }

    /**
     * The seeding part of Proximity_start. A failed service registration is
     * returned as is and nothing is touched. Otherwise Detection is set to 0,
     * Range, Sensitivity and Timeout to what the driver reports, the change
     * callback is registered, and the result is FAILURE if either task could
     * not be created.
     */
    method Start(addServiceStatus: Status, detectionTaskCreated: bool, sensorTaskCreated: bool)
      returns (status: Status)
      modifies profile
      ensures addServiceStatus != Success ==>
        status == addServiceStatus &&
        profile.Values() == old(profile.Values()) && profile.notified == old(profile.notified) &&
        profile.appCBs == old(profile.appCBs)
      ensures addServiceStatus == Success ==>
        profile.Values() == Characteristics(0, sensor.range, sensor.sensitivity, sensor.timeout) &&
        profile.notified == old(profile.notified) + [0] &&
        profile.appCBs == Some(AppCallbacks(true)) &&
        status == if detectionTaskCreated && sensorTaskCreated then Success else Failure
    {
      if addServiceStatus != Success {
        return addServiceStatus;
      }
      var charProximity: uint8 := 0;
      var charRange := sensor.range;
      var charSensitivity := sensor.sensitivity;
      var charTimeout := sensor.timeout;
      var _ := profile.SetParameter(Id(Detection), 1, charProximity);
      var _ := profile.SetParameter(Id(Range), 2, charRange);
      var _ := profile.SetParameter(Id(Sensitivity), 1, charSensitivity);
      var _ := profile.SetParameter(Id(Timeout), 2, charTimeout);
      status := profile.RegisterAppCBs(Some(AppCallbacks(true)));
      if !detectionTaskCreated {
        status := Failure;
      }
      if !sensorTaskCreated {
        status := Failure;
      }
    }

    /**
     * A peer's write end to end: the profile's write callback, then, when it
     * raises the change callback and the hand-off buffer can be allocated,
     * the change callback in the application's context.
     */
    method OnPeerWrite(attr: AttrType, payload: seq<uint8>, offset: uint16, cccStatus: Status, bufferAllocated: bool)
      returns (status: Status)
      modifies profile, sensor
      ensures status == WriteStatus(attr, |payload|, offset, cccStatus)
      ensures
        var written := WriteEffect(old(profile.Values()), attr, payload, offset);
        var raised := if old(profile.ChangeCallbackRegistered()) then NotifyApp(attr) else None;
        if raised.Some? && bufferAllocated then
          sensor.State() == ApplyCalls(old(sensor.State()), ChangeCalls(raised.value, written)) &&
          profile.Values() == EchoBack(raised.value, written, old(sensor.State()))
        else
          sensor.State() == old(sensor.State()) && profile.Values() == written
      ensures profile.notified == old(profile.notified) && profile.appCBs == old(profile.appCBs)
      ensures old(sensor.State()).InBounds() ==> sensor.State().InBounds()
    {
      var raised;
      status, raised := profile.WriteAttr(attr, payload, offset, cccStatus);
      if raised.Some? && bufferAllocated {
        ChangeCB(raised.value);
      }
    }
  }

  /** Three calls made one after another have the effect of the three-call sequence. */
  lemma CallsInOrder(d: Driver, a: SensorCall, b: SensorCall, c: SensorCall)
    ensures ApplyCalls(d, [a, b, c]) == ApplyCall(ApplyCall(ApplyCall(d, a), b), c)
  {
    var d1 := ApplyCall(d, a);
    var d2 := ApplyCall(d1, b);
    assert [a, b, c][1..] == [b, c];
    assert ApplyCalls(d, [a, b, c]) == ApplyCalls(d1, [b, c]);
    assert [b, c][1..] == [c];
    assert ApplyCalls(d1, [b, c]) == ApplyCalls(d2, [c]);
    assert [c][1..] == [];
    assert ApplyCalls(d2, [c]) == ApplyCall(d2, c);
  }
}
