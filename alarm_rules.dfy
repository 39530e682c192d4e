/** The transition rules of the alarm controller, on values.

    Each of the three inputs (a sensor activation change, an arming change, a
    processed camera image) decides whether the alarm status is written and
    with what value. `Run` folds those decisions over a sequence of inputs and
    records every write, which is what the suite checks with its
    "written exactly once" and "never written" verifications. */
module AlarmRules {
  import opened SecurityData

  /** What one input does to the stored alarm status. */
  datatype AlarmWrite = Keep | Write(status: AlarmStatus)

  /** The alert level as a number: no alarm, pending, alarm. */
  function Severity(a: AlarmStatus): (level: nat)
  {
    match a
    case NoAlarm => 0
    case PendingAlarm => 1
    case Alarm => 2
  }

  /** The alarm status after a write decision has been carried out. */
  function Apply(alarm: AlarmStatus, w: AlarmWrite): (after: AlarmStatus)
  {
    if w.Write? then w.status else alarm
  }

  /** The calls to setAlarmStatus a write decision makes: none or one. */
  function Logged(w: AlarmWrite): (writes: seq<AlarmStatus>)
  {
    if w.Write? then [w.status] else []
  }

  /** Requested change of a sensor to `active`, where the sensor was
      `wasActive` before and `noneActiveAfter` tells whether, once the sensor
      has been updated, no registered sensor is active. */
  function SensorChangeWrite(alarm: AlarmStatus, arming: ArmingStatus, wasActive: bool,
                             active: bool, noneActiveAfter: bool): (w: AlarmWrite)
    // Requirement 1 and the disarmed-while-alarm rule of Test 12
    ensures w == Write(PendingAlarm) <==>
              (alarm == NoAlarm && active && arming != Disarmed) ||
              (alarm == Alarm && arming == Disarmed && !active)
    // Requirements 2 and 5: escalation holds even when the sensor was already active
    ensures w == Write(Alarm) <==> alarm == PendingAlarm && active && arming != Disarmed
    // Requirement 3: only the last active sensor going off clears a pending alarm
    ensures w == Write(NoAlarm) <==> alarm == PendingAlarm && wasActive && !active && noneActiveAfter
    // Requirement 4: an alarm ignores sensor changes while armed
    ensures alarm == Alarm && arming != Disarmed ==> w == Keep
    // Requirement 6: deactivating an inactive sensor writes nothing while armed
    ensures !wasActive && !active && arming != Disarmed ==> w == Keep
    // every write is a change of status
    ensures w.Write? ==> w.status != alarm
  {
    match alarm
    case Alarm =>
      if arming == Disarmed && !active then Write(PendingAlarm) else Keep
    case PendingAlarm =>
      if active then
        (if arming == Disarmed then Keep else Write(Alarm))
      else if wasActive && noneActiveAfter then Write(NoAlarm)
      else Keep
    case NoAlarm =>
      if active && arming != Disarmed then Write(PendingAlarm) else Keep
  }

  /** Changing the arming status to `status`. */
  function ArmingWrite(status: ArmingStatus): (w: AlarmWrite)
    // Requirement 9: disarming always writes no-alarm, whatever the alarm was
    ensures status == Disarmed ==> w == Write(NoAlarm)
    // arming resets sensors but never writes the alarm status; no earlier cat
    // verdict is remembered, so arming at home after a cat image writes nothing
    ensures status != Disarmed ==> w == Keep
  {
    if status == Disarmed then Write(NoAlarm) else Keep
  }

  /** A camera image whose classifier verdict is `cat`, where `noneActive`
      tells whether no registered sensor is active. */
  function ImageWrite(cat: bool, arming: ArmingStatus, noneActive: bool): (w: AlarmWrite)
    // Requirements 7 and 11
    ensures cat && arming == ArmedHome ==> w == Write(Alarm)
    // Requirement 8
    ensures !cat && noneActive ==> w == Write(NoAlarm)
    // nothing else writes
    ensures w.Write? ==> (cat && arming == ArmedHome) || (!cat && noneActive)
  {
    if cat && arming == ArmedHome then Write(Alarm)
    else if !cat && noneActive then Write(NoAlarm)
    else Keep
  }

  /** The two statuses the repository holds. */
  datatype Snapshot = Snapshot(arming: ArmingStatus, alarm: AlarmStatus)

  /** One input to the controller, with what it observes of the sensors. */
  datatype Event =
    | SensorChanged(wasActive: bool, active: bool, noneActiveAfter: bool)
    | ArmingChanged(status: ArmingStatus)
    | ImageProcessed(cat: bool, noneActive: bool)

  function EventWrite(s: Snapshot, e: Event): (w: AlarmWrite)
  {
    match e
    case SensorChanged(wasActive, active, noneActiveAfter) =>
      SensorChangeWrite(s.alarm, s.arming, wasActive, active, noneActiveAfter)
    case ArmingChanged(status) => ArmingWrite(status)
    case ImageProcessed(cat, noneActive) => ImageWrite(cat, s.arming, noneActive)
  }

  function Step(s: Snapshot, e: Event): (next: Snapshot)
  {
    Snapshot(if e.ArmingChanged? then e.status else s.arming, Apply(s.alarm, EventWrite(s, e)))
  }

  /** The final statuses and every alarm status written, in order. */
  datatype Trace = Trace(final: Snapshot, writes: seq<AlarmStatus>)

  /** Processing `events` one after the other from `s`. There are no more
      writes than inputs, and the stored alarm status is always the last one
      written. */
  function Run(s: Snapshot, events: seq<Event>): (t: Trace)
    ensures |t.writes| <= |events|
    ensures t.final.alarm == if t.writes == [] then s.alarm else t.writes[|t.writes| - 1]
    decreases |events|
  {
    if events == [] then Trace(s, [])
    else
      var rest := Run(Step(s, events[0]), events[1..]);
      Trace(rest.final, Logged(EventWrite(s, events[0])) + rest.writes)
  }

  /** Processing one more input after a sequence: `Run` extends call by call,
      so a run of service calls is the `Run` of their inputs. */
  lemma {:induction false} RunAppend(s: Snapshot, events: seq<Event>, e: Event)
    ensures Run(s, events + [e]) ==
      Trace(Step(Run(s, events).final, e), Run(s, events).writes + Logged(EventWrite(Run(s, events).final, e)))
    decreases |events|
  {
    if events == [] {
      assert events + [e] == [e];
    } else {
      assert (events + [e])[0] == events[0];
      assert (events + [e])[1..] == events[1..] + [e];
      RunAppend(Step(s, events[0]), events[1..], e);
    }
  }

  predicate SensorEventsOnly(events: seq<Event>)
  {
    forall i :: 0 <= i < |events| ==> events[i].SensorChanged?
  }

  predicate Activations(events: seq<Event>)
  {
    forall i :: 0 <= i < |events| ==> events[i].SensorChanged? && events[i].active
  }

  predicate Deactivations(events: seq<Event>)
  {
    forall i :: 0 <= i < |events| ==> events[i].SensorChanged? && !events[i].active
  }

  predicate NoArmingChange(events: seq<Event>)
  {
    forall i :: 0 <= i < |events| ==> !events[i].ArmingChanged?
  }

  /** Once in alarm while armed, no sequence of sensor changes, activations or
      deactivations, leaves the alarm or writes the alarm status. */
  lemma {:induction false} AlarmHoldsUnderSensorEvents(s: Snapshot, events: seq<Event>)
    requires s.alarm == Alarm && s.arming != Disarmed
    requires SensorEventsOnly(events)
    ensures Run(s, events) == Trace(s, [])
    decreases |events|
  {
    if events != [] {
      AlarmHoldsUnderSensorEvents(Step(s, events[0]), events[1..]);
    }
  }

  /** While armed, two sensor activations raise the alarm from any status:
      the first makes it at least pending, the second makes it an alarm. */
  lemma {:induction false} TwoActivationsRaiseAlarm(s: Snapshot, events: seq<Event>)
    requires s.arming != Disarmed
    requires |events| >= 2 && Activations(events)
    ensures Run(s, events).final.alarm == Alarm
  {
    var s1 := Step(s, events[0]);
    var s2 := Step(s1, events[1]);
    assert s2.alarm == Alarm && s2.arming == s.arming;
    assert SensorEventsOnly(events[2..]) by {
      forall i | 0 <= i < |events[2..]| ensures events[2..][i].SensorChanged? {
        assert events[2..][i] == events[i + 2];
      }
    }
    AlarmHoldsUnderSensorEvents(s2, events[2..]);
    assert events[1..][1..] == events[2..];
  }

  /** Sensor activations never lower the alert level, and while disarmed they
      never write the alarm status at all. */
  lemma {:induction false} ActivationsNeverLower(s: Snapshot, events: seq<Event>)
    requires Activations(events)
    ensures Severity(Run(s, events).final.alarm) >= Severity(s.alarm)
    ensures Run(s, events).final.arming == s.arming
    ensures s.arming == Disarmed ==> Run(s, events).writes == []
    decreases |events|
  {
    if events != [] {
      assert Activations(events[1..]) by {
        forall i | 0 <= i < |events[1..]| ensures events[1..][i].SensorChanged? && events[1..][i].active {
          assert events[1..][i] == events[i + 1];
        }
      }
      ActivationsNeverLower(Step(s, events[0]), events[1..]);
    }
  }

  /** Sensor deactivations never raise the alert level, armed or not. */
  lemma {:induction false} DeactivationsNeverRaise(s: Snapshot, events: seq<Event>)
    requires Deactivations(events)
    ensures Severity(Run(s, events).final.alarm) <= Severity(s.alarm)
    decreases |events|
  {
    if events != [] {
      assert Deactivations(events[1..]) by {
        forall i | 0 <= i < |events[1..]| ensures events[1..][i].SensorChanged? && !events[1..][i].active {
          assert events[1..][i] == events[i + 1];
        }
      }
      DeactivationsNeverRaise(Step(s, events[0]), events[1..]);
    }
  }

  /** A disarmed system at no-alarm stays at no-alarm under any sensor changes
      and camera images, and the only status it writes is no-alarm. */
  lemma {:induction false} DisarmedStaysQuiet(s: Snapshot, events: seq<Event>)
    requires s == Snapshot(Disarmed, NoAlarm)
    requires NoArmingChange(events)
    ensures Run(s, events).final == s
    ensures forall i :: 0 <= i < |Run(s, events).writes| ==> Run(s, events).writes[i] == NoAlarm
    decreases |events|
  {
    if events != [] {
      assert NoArmingChange(events[1..]) by {
        forall i | 0 <= i < |events[1..]| ensures !events[1..][i].ArmingChanged? {
          assert events[1..][i] == events[i + 1];
        }
      }
      DisarmedStaysQuiet(Step(s, events[0]), events[1..]);
    }
  }

  /** Disarming forces no-alarm whatever came before, and it stays so until the
      system is armed again: the disarm rule holds as an invariant, not only at
      the moment of the arming change. */
  lemma {:induction false} DisarmHolds(s: Snapshot, events: seq<Event>)
    requires NoArmingChange(events)
    ensures Run(s, [ArmingChanged(Disarmed)] + events).final == Snapshot(Disarmed, NoAlarm)
    ensures Run(s, [ArmingChanged(Disarmed)] + events).writes[0] == NoAlarm
  {
    var all := [ArmingChanged(Disarmed)] + events;
    assert all[0] == ArmingChanged(Disarmed) && all[1..] == events;
    DisarmedStaysQuiet(Step(s, ArmingChanged(Disarmed)), events);
  }
}
