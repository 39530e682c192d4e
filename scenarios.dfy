/** Clients of the service that replay the suite's scenarios from the
    contracts alone: each checks which alarm statuses were written, or what
    became of the sensors and listeners. Where the suite stubs a status, the
    repository is built holding that status. */
module Scenarios {
  import opened SecurityData
  import opened AlarmRules
  import opened Repository
  import opened Service

  /** Tests 1 and 2: an activation while armed moves no-alarm to pending and
      pending to alarm, one write each. */
  method ActivationWhileArmed(armed: ArmingStatus)
    requires armed != Disarmed
  {
    var door := new Sensor("Door", Door);
    var repo := new SecurityRepository(armed, NoAlarm);
    var service := new SecurityService(repo);
    service.ChangeSensorActivationStatus(door, true);
    assert repo.alarmWrites == [PendingAlarm];

    var door2 := new Sensor("Door", Door);
    var repo2 := new SecurityRepository(armed, PendingAlarm);
    var service2 := new SecurityService(repo2);
    service2.ChangeSensorActivationStatus(door2, true);
    assert repo2.alarmWrites == [Alarm];
  }

  /** Test 3: deactivating the only active sensor while pending writes
      no-alarm once. The suite's mocked store discards the alarm statuses
      written to it and keeps answering pending, so its activation step does
      not escalate there. This store keeps what is written: activating the
      sensor while pending would raise the alarm, which then ignores the
      deactivation. The sensor is therefore set active directly, as the state
      the suite's activation step stands for. */
  method LastSensorOffClearsPending()
  {
    var door := new Sensor("Door", Door);
    var window := new Sensor("Window", Window);
    var repo := new SecurityRepository(ArmedHome, PendingAlarm);
    var service := new SecurityService(repo);
    service.AddSensor(door);
    service.AddSensor(window);
    assert repo.sensors == {door, window};
    door.active := true;
    service.ChangeSensorActivationStatus(door, false);
    assert repo.NoneActive();
    assert repo.alarmWrites == [NoAlarm];
    var alarm := service.GetAlarmStatus();
    assert alarm == NoAlarm;
  }

  /** Test 4: while in alarm and armed, a sensor change to either value writes
      nothing. */
  method AlarmIgnoresSensors(armed: ArmingStatus, active: bool)
    requires armed != Disarmed
  {
    var door := new Sensor("Door", Door);
    var repo := new SecurityRepository(armed, Alarm);
    var service := new SecurityService(repo);
    service.ChangeSensorActivationStatus(door, active);
    assert repo.alarmWrites == [];
  }

  /** Test 5: activating a sensor, then activating it again while pending,
      writes alarm exactly once. */
  method ReactivationEscalates(armed: ArmingStatus)
    requires armed != Disarmed
  {
    var door := new Sensor("Door", Door);
    var repo := new SecurityRepository(armed, NoAlarm);
    var service := new SecurityService(repo);
    service.ChangeSensorActivationStatus(door, true);
    service.ChangeSensorActivationStatus(door, true);
    assert repo.alarmWrites == [PendingAlarm, Alarm];
    assert repo.alarmStatus == Alarm;
  }

  /** Test 5 again, concluded from the rules on sequences of inputs: each
      call's input is appended to a ghost event list whose `Run` matches the
      store after every call, so `TwoActivationsRaiseAlarm` gives the alarm. */
  method ReactivationEscalatesByRun(armed: ArmingStatus, alarm: AlarmStatus)
    requires armed != Disarmed
  {
    var door := new Sensor("Door", Door);
    var repo := new SecurityRepository(armed, alarm);
    var service := new SecurityService(repo);
    ghost var start := service.Snap();
    ghost var events: seq<Event> := [];

    ghost var e := SensorChanged(door.active, true, false);
    service.ChangeSensorActivationStatus(door, true);
    e := e.(noneActiveAfter := repo.NoneActive());
    RunAppend(start, events, e);
    events := events + [e];
    assert service.Snap() == Run(start, events).final && repo.alarmWrites == Run(start, events).writes;

    e := SensorChanged(door.active, true, false);
    service.ChangeSensorActivationStatus(door, true);
    e := e.(noneActiveAfter := repo.NoneActive());
    RunAppend(start, events, e);
    events := events + [e];
    assert service.Snap() == Run(start, events).final && repo.alarmWrites == Run(start, events).writes;

    TwoActivationsRaiseAlarm(start, events);
    assert repo.alarmStatus == Alarm;
  }

  /** Test 6: deactivating an inactive sensor twice writes nothing, whatever
      the alarm status. */
  method InactiveStaysQuiet(armed: ArmingStatus, alarm: AlarmStatus)
    requires armed != Disarmed
  {
    var door := new Sensor("Door", Door);
    var repo := new SecurityRepository(armed, alarm);
    var service := new SecurityService(repo);
    service.ChangeSensorActivationStatus(door, false);
    service.ChangeSensorActivationStatus(door, false);
    assert repo.alarmWrites == [];
  }

  /** Tests 7 and 11: a cat seen while armed at home writes alarm once. */
  method CatWhileArmedHome(alarm: AlarmStatus)
  {
    var repo := new SecurityRepository(ArmedHome, alarm);
    var service := new SecurityService(repo);
    service.ProcessImage(true);
    assert repo.alarmWrites == [Alarm];
  }

  /** Test 8: arming at home with all sensors inactive writes nothing; an image
      without a cat then writes no-alarm once. */
  method NoCatClearsAlarm(alarm: AlarmStatus)
  {
    var door := new Sensor("Door", Door);
    var window := new Sensor("Window", Window);
    var motion := new Sensor("Motion", Motion);
    var repo := new SecurityRepository(Disarmed, alarm);
    var service := new SecurityService(repo);
    service.AddSensor(door);
    service.AddSensor(window);
    service.AddSensor(motion);
    service.SetArmingStatus(ArmedHome);
    service.ProcessImage(false);
    assert repo.alarmWrites == [NoAlarm];
  }

  /** Test 9: disarming writes no-alarm once, even from alarm. */
  method DisarmClears(armed: ArmingStatus)
  {
    var repo := new SecurityRepository(armed, Alarm);
    var service := new SecurityService(repo);
    service.SetArmingStatus(Disarmed);
    assert repo.alarmWrites == [NoAlarm] && repo.alarmStatus == NoAlarm;
  }

  /** Test 10: sensors activated while disarmed are all inactive once the
      system is armed, and none of it wrote the alarm status. */
  method ArmingResetsSensors(armed: ArmingStatus)
    requires armed != Disarmed
  {
    var door := new Sensor("Door", Door);
    var window := new Sensor("Window", Window);
    var motion := new Sensor("Motion", Motion);
    var repo := new SecurityRepository(Disarmed, NoAlarm);
    var service := new SecurityService(repo);
    service.AddSensor(door);
    service.AddSensor(window);
    service.AddSensor(motion);
    service.ChangeSensorActivationStatus(door, true);
    service.ChangeSensorActivationStatus(window, true);
    service.SetArmingStatus(armed);
    assert !door.active && !window.active && !motion.active;
    assert repo.alarmWrites == [];
  }

  /** Test 12: in alarm while disarmed, a deactivation writes pending once. */
  method DisarmedAlarmDeactivation()
  {
    var door := new Sensor("Door", Door);
    var repo := new SecurityRepository(Disarmed, Alarm);
    var service := new SecurityService(repo);
    service.ChangeSensorActivationStatus(door, false);
    assert repo.alarmWrites == [PendingAlarm];
  }

  /** Tests 13 and 14: adding then removing a sensor goes through the
      repository and touches no status. */
  method SensorRegistry()
  {
    var door := new Sensor("Door", Door);
    var window := new Sensor("Window", Window);
    var repo := new SecurityRepository(Disarmed, NoAlarm);
    var service := new SecurityService(repo);
    service.AddSensor(door);
    service.AddSensor(window);
    assert repo.sensors == {door, window};
    service.RemoveSensor(window);
    assert repo.sensors == {door};
    assert repo.alarmWrites == [];
  }

  /** Tests 15 and 16: a listener added is held; added then removed, none is. */
  method ListenerRegistry(listener: StatusListener)
  {
    var repo := new SecurityRepository(Disarmed, NoAlarm);
    var service := new SecurityService(repo);
    service.AddStatusListener(listener);
    var held := service.GetStatusListeners();
    assert listener in held;
    service.RemoveStatusListener(listener);
    held := service.GetStatusListeners();
    assert held == {};
  }
}
