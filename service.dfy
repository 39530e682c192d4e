/** The security service: it applies the alarm rules to sensor changes, arming
    changes and camera verdicts, writing through the repository, and keeps the
    set of status listeners. */
module Service {
  import opened SecurityData
  import opened AlarmRules
  import opened Repository

  class SecurityService {
    const repo: SecurityRepository
    var statusListeners: set<StatusListener>

    ghost predicate Valid()
      reads this, repo
    {
      repo.Valid()
    }

    /** The statuses held in the repository. */
    ghost function Snap(): Snapshot
      reads this, repo
    {
      Snapshot(repo.armingStatus, repo.alarmStatus)
    }

    /** A service over `repo`, with no listeners yet. */
    constructor (repo: SecurityRepository)
      requires repo.Valid()
      ensures Valid()
      ensures this.repo == repo && statusListeners == {}
    {
      this.repo := repo;
      statusListeners := {};
    }

    /** Sets `sensor` to `active` and writes the alarm status the sensor rules
        call for, judged on the statuses before the call and on the registry
        after the sensor has been updated. */
    method ChangeSensorActivationStatus(sensor: Sensor, active: bool)
      requires Valid()
      modifies repo, sensor
      ensures Valid()
      ensures sensor.active == active
      ensures repo.sensors == old(repo.sensors) && repo.armingStatus == old(repo.armingStatus)
      ensures repo.alarmWrites == old(repo.alarmWrites) +
        Logged(SensorChangeWrite(old(repo.alarmStatus), old(repo.armingStatus), old(sensor.active), active, repo.NoneActive()))
      ensures repo.alarmStatus ==
        Apply(old(repo.alarmStatus), SensorChangeWrite(old(repo.alarmStatus), old(repo.armingStatus), old(sensor.active), active, repo.NoneActive()))
      ensures Snap() == Step(old(Snap()), SensorChanged(old(sensor.active), active, repo.NoneActive()))
    {
      var alarm := repo.alarmStatus;
      var arming := repo.armingStatus;
      var wasActive := sensor.active;
      sensor.active := active;
      if alarm == Alarm {
        if arming == Disarmed && !active {
          repo.SetAlarmStatus(PendingAlarm);
        }
      } else if active {
        if arming != Disarmed {
          repo.SetAlarmStatus(if alarm == NoAlarm then PendingAlarm else Alarm);
        }
      } else if wasActive && alarm == PendingAlarm {
        var none := repo.NoSensorActive();
        if none {
          repo.SetAlarmStatus(NoAlarm);
        }
      }
    }

    /** Disarming writes no-alarm; arming resets every registered sensor to
        inactive and leaves the alarm status alone. */
    method SetArmingStatus(status: ArmingStatus)
      requires Valid()
      modifies repo, repo.sensors
      ensures Valid()
      ensures repo.sensors == old(repo.sensors)
      ensures repo.alarmWrites == old(repo.alarmWrites) + Logged(ArmingWrite(status))
      ensures Snap() == Step(old(Snap()), ArmingChanged(status))
      ensures status != Disarmed ==> repo.NoneActive()
      ensures status == Disarmed ==> unchanged(repo.sensors)
    {
      if status == Disarmed {
        repo.SetAlarmStatus(NoAlarm);
      } else {
        var pending := repo.sensors;
        while pending != {}
          invariant pending <= repo.sensors
          invariant forall s :: s in repo.sensors && s !in pending ==> !s.active
          modifies repo.sensors
          decreases pending
        {
          var s :| s in pending;
          s.active := false;
          pending := pending - {s};
        }
      }
      repo.SetArmingStatus(status);
    }

    /** Applies the classifier's verdict on one camera image: a cat while armed
        at home raises the alarm; no cat while no sensor is active clears it. */
    method ProcessImage(catDetected: bool)
      requires Valid()
      modifies repo
      ensures Valid()
      ensures repo.sensors == old(repo.sensors) && repo.armingStatus == old(repo.armingStatus)
      ensures repo.alarmWrites == old(repo.alarmWrites) +
        Logged(ImageWrite(catDetected, old(repo.armingStatus), repo.NoneActive()))
      ensures Snap() == Step(old(Snap()), ImageProcessed(catDetected, repo.NoneActive()))
    {
      if catDetected && repo.armingStatus == ArmedHome {
        repo.SetAlarmStatus(Alarm);
      } else if !catDetected {
        var none := repo.NoSensorActive();
        if none {
          repo.SetAlarmStatus(NoAlarm);
        }
      }
    }

    /** Registers the sensor in the repository; statuses are not touched. */
    method AddSensor(sensor: Sensor)
      requires Valid()
      modifies repo
      ensures Valid()
      ensures exists r :: r in repo.sensors && r.SameDevice(sensor)
      ensures (exists r :: r in old(repo.sensors) && r.SameDevice(sensor)) ==> repo.sensors == old(repo.sensors)
      ensures (forall r :: r in old(repo.sensors) ==> !r.SameDevice(sensor)) ==> repo.sensors == old(repo.sensors) + {sensor}
      ensures Snap() == old(Snap()) && repo.alarmWrites == old(repo.alarmWrites)
    {
      repo.AddSensor(sensor);
    }

    /** Unregisters the sensor's device from the repository; statuses are not touched. */
    method RemoveSensor(sensor: Sensor)
      requires Valid()
      modifies repo
      ensures Valid()
      ensures forall r :: r in repo.sensors <==> r in old(repo.sensors) && !r.SameDevice(sensor)
      ensures Snap() == old(Snap()) && repo.alarmWrites == old(repo.alarmWrites)
    {
      repo.RemoveSensor(sensor);
    }

    method AddStatusListener(listener: StatusListener)
      modifies this
      ensures statusListeners == old(statusListeners) + {listener}
    {
      statusListeners := statusListeners + {listener};
    }

    method RemoveStatusListener(listener: StatusListener)
      modifies this
      ensures statusListeners == old(statusListeners) - {listener}
    {
      statusListeners := statusListeners - {listener};
    }

    method GetStatusListeners() returns (listeners: set<StatusListener>)
      ensures listeners == statusListeners
    {
      listeners := statusListeners;
    }

    method GetAlarmStatus() returns (alarm: AlarmStatus)
      ensures alarm == repo.alarmStatus
    {
      alarm := repo.alarmStatus;
    }
  }
}
