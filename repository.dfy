/** The store of record the service reads and writes: the arming status, the
    alarm status and the registered sensors, held in memory. */
module Repository {
  import opened SecurityData

  /** `alarmWrites` is a ghost log of every alarm status written, in order: the
      calls to setAlarmStatus that the suite counts on its mocked repository. */
  class SecurityRepository {
    var armingStatus: ArmingStatus
    var alarmStatus: AlarmStatus
    var sensors: set<Sensor>
    ghost var alarmWrites: seq<AlarmStatus>

    /** The registry is a set of devices: no two sensors share name and type. */
    ghost predicate Valid()
      reads this
    {
      forall a, b :: a in sensors && b in sensors && a.SameDevice(b) ==> a == b
    }

    /** No registered sensor is active. */
    ghost predicate NoneActive()
      reads this, sensors
    {
      forall s :: s in sensors ==> !s.active
    }

    /** A store holding the given statuses and no sensors; nothing written yet. */
    constructor (arming: ArmingStatus, alarm: AlarmStatus)
      ensures Valid()
      ensures armingStatus == arming && alarmStatus == alarm
      ensures sensors == {} && alarmWrites == []
    {
      armingStatus := arming;
      alarmStatus := alarm;
      sensors := {};
      alarmWrites := [];
    }

    method SetAlarmStatus(status: AlarmStatus)
      requires Valid()
      modifies this
      ensures Valid()
      ensures alarmStatus == status && alarmWrites == old(alarmWrites) + [status]
      ensures armingStatus == old(armingStatus) && sensors == old(sensors)
    {
      alarmStatus := status;
      alarmWrites := alarmWrites + [status];
    }

    method SetArmingStatus(status: ArmingStatus)
      requires Valid()
      modifies this
      ensures Valid()
      ensures armingStatus == status
      ensures alarmStatus == old(alarmStatus) && alarmWrites == old(alarmWrites)
      ensures sensors == old(sensors)
    {
      armingStatus := status;
    }

    /** Adding a device already registered leaves the registry as it was. */
    method AddSensor(sensor: Sensor)
      requires Valid()
      modifies this
      ensures Valid()
      ensures (exists r :: r in old(sensors) && r.SameDevice(sensor)) ==> sensors == old(sensors)
      ensures (forall r :: r in old(sensors) ==> !r.SameDevice(sensor)) ==> sensors == old(sensors) + {sensor}
      ensures armingStatus == old(armingStatus) && alarmStatus == old(alarmStatus)
      ensures alarmWrites == old(alarmWrites)
    {
      if forall r | r in sensors :: !r.SameDevice(sensor) {
        sensors := sensors + {sensor};
      }
    }

    /** Removes the registered sensor for the same device, if there is one. */
    method RemoveSensor(sensor: Sensor)
      requires Valid()
      modifies this
      ensures Valid()
      ensures forall r :: r in sensors <==> r in old(sensors) && !r.SameDevice(sensor)
      ensures armingStatus == old(armingStatus) && alarmStatus == old(alarmStatus)
      ensures alarmWrites == old(alarmWrites)
    {
      sensors := set r | r in sensors && !r.SameDevice(sensor);
    }

    /** Whether no registered sensor is active, looking at each sensor in turn. */
    method NoSensorActive() returns (none: bool)
      ensures none == NoneActive()
    {
      none := true;
      var unseen := sensors;
      while unseen != {}
        invariant unseen <= sensors
        invariant none <==> forall s :: s in sensors && s !in unseen ==> !s.active
        decreases unseen
      {
        var s :| s in unseen;
        if s.active {
          none := false;
        }
        unseen := unseen - {s};
      }
    }
  }
}
