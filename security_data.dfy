/** Value types and the two reference entities of the home security service:
    the statuses it moves between, and the sensors and status listeners it holds. */
module SecurityData {

  /** The kind of device a sensor is. */
  datatype SensorType = Door | Window | Motion

  /** The monitoring mode the operator selects. */
  datatype ArmingStatus = Disarmed | ArmedHome | ArmedAway

  /** The system's current alert level. */
  datatype AlarmStatus = NoAlarm | PendingAlarm | Alarm

  /** A named, typed device. Its name and type never change; its active flag is
      flipped in place by the service. */
  class Sensor {
    const name: string
    const sensorType: SensorType
    var active: bool

    /** A new sensor starts inactive. */
    constructor (name: string, sensorType: SensorType)
      ensures this.name == name && this.sensorType == sensorType
      ensures !active
    {
      this.name := name;
      this.sensorType := sensorType;
      active := false;
    }

    /** Two sensors stand for the same device when name and type agree; the
        registry keeps at most one sensor per device. */
    predicate SameDevice(other: Sensor)
    {
      name == other.name && sensorType == other.sensorType
    }
  }

  /** An observer of status changes. Only its identity matters here: the model
      keeps the set of subscribers, not the calls made to them. */
  class StatusListener {
  }
}
