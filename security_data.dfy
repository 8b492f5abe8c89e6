/**
 * The data package of the alarm system: the two status enumerations, the
 * sensor entity and the repository that holds the authoritative alarm
 * status, arming status and sensor set.
 */
module SecurityData {

  /** Alarm severity, ordered NoAlarm < PendingAlarm < Alarm. */
  datatype AlarmStatus = NoAlarm | PendingAlarm | Alarm

  datatype ArmingStatus = Disarmed | ArmedHome | ArmedAway

  datatype SensorType = Door | Window | Motion

  /** Position of a status in the severity order. */
  function Severity(a: AlarmStatus): (n: nat)
  {
    match a
    case NoAlarm => 0
    case PendingAlarm => 1
    case Alarm => 2
  }

  /** A door, window or motion sensor; only its active flag ever changes. */
  class Sensor {
    const name: string
    const sensorType: SensorType
    var active: bool

    constructor (name: string, sensorType: SensorType)
      ensures this.name == name && this.sensorType == sensorType
      ensures !active
    {
      this.name := name;
      this.sensorType := sensorType;
      active := false;
    }

    /** Sets the flag directly, bypassing every alarm rule. */
    method SetActive(active: bool)
      modifies this`active
      ensures this.active == active
    {
      this.active := active;
    }
  }

  /**
   * The store the engine reads and writes. `alarmWrites` records every
   * call of SetAlarmStatus, in order, so that "written exactly once" and
   * "never written" can be stated about an operation.
   */
  class SecurityRepository {
    var alarmStatus: AlarmStatus
    var armingStatus: ArmingStatus
    var sensors: set<Sensor>
    var alarmWrites: seq<AlarmStatus>

    /** A repository in an arbitrary stored state, with no writes recorded. */
    constructor (alarmStatus: AlarmStatus, armingStatus: ArmingStatus, sensors: set<Sensor>)
      ensures this.alarmStatus == alarmStatus && this.armingStatus == armingStatus
      ensures this.sensors == sensors && alarmWrites == []
    {
      this.alarmStatus := alarmStatus;
      this.armingStatus := armingStatus;
      this.sensors := sensors;
      alarmWrites := [];
    }

    method SetAlarmStatus(status: AlarmStatus)
      modifies this`alarmStatus, this`alarmWrites
      ensures alarmStatus == status
      ensures alarmWrites == old(alarmWrites) + [status]
    {
      alarmStatus := status;
      alarmWrites := alarmWrites + [status];
    }

    method SetArmingStatus(status: ArmingStatus)
      modifies this`armingStatus
      ensures armingStatus == status
    {
      armingStatus := status;
    }

    method AddSensor(sensor: Sensor)
      modifies this`sensors
      ensures sensors == old(sensors) + {sensor}
    {
      sensors := sensors + {sensor};
    }

    method RemoveSensor(sensor: Sensor)
      modifies this`sensors
      ensures sensors == old(sensors) - {sensor}
    {
      sensors := sensors - {sensor};
    }
  }
}
