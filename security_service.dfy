/**
 * The alarm decision engine. It owns the listener registry and the last
 * classifier verdict; the alarm status, arming status and sensors live in
 * the repository it was built with.
 */
module Service {
  import opened SecurityData
  import opened AlarmRules

  /** An observer of alarm-status changes; only its identity is modelled. */
  class StatusListener {
    constructor ()
    {
    }
  }

  /** Holds when no sensor in `sensors` is active. */
  ghost predicate NoneActiveIn(sensors: set<Sensor>)
    reads sensors
  {
    forall s :: s in sensors ==> !s.active
  }

  /** Looks through the sensors for an active one. */
  method NoneActive(sensors: set<Sensor>) returns (quiet: bool)
    ensures quiet <==> NoneActiveIn(sensors)
  {
    var rest := sensors;
    quiet := true;
    while rest != {} && quiet
      invariant rest <= sensors
      invariant quiet <==> (forall s :: s in sensors - rest ==> !s.active)
      decreases rest
    {
      var s :| s in rest;
      if s.active {
        quiet := false;
      }
      rest := rest - {s};
    }
  }

  /** Sets every sensor of `sensors` inactive, one at a time. */
  method DeactivateAll(sensors: set<Sensor>)
    modifies sensors
    ensures NoneActiveIn(sensors)
  {
    var rest := sensors;
    while rest != {}
      invariant rest <= sensors
      invariant forall s :: s in sensors - rest ==> !s.active
      decreases rest
    {
      var s :| s in rest;
      s.SetActive(false);
      rest := rest - {s};
    }
  }

  class SecurityService {
    const repository: SecurityRepository
    const policy: Policy
    /** The verdict of the most recent ProcessImage call. */
    var catDetected: bool
    var statusListeners: set<StatusListener>

    constructor (repository: SecurityRepository, policy: Policy)
      ensures this.repository == repository && this.policy == policy
      ensures !catDetected && statusListeners == {}
    {
      this.repository := repository;
      this.policy := policy;
      catDetected := false;
      statusListeners := {};
    }

    /** The single path through which the engine writes an alarm status. */
    method SetAlarmStatus(w: Option<AlarmStatus>)
      modifies repository`alarmStatus, repository`alarmWrites
      ensures repository.alarmWrites == old(repository.alarmWrites) + Written(w)
      ensures repository.alarmStatus == Apply(old(repository.alarmStatus), w)
    {
      if w.Some? {
        repository.SetAlarmStatus(w.value);
      }
    }

    method ChangeSensorActivationStatus(sensor: Sensor, active: bool)
      modifies sensor`active, repository`alarmStatus, repository`alarmWrites
      ensures sensor.active == active
      ensures var w := SensorDecision(old(repository.alarmStatus), repository.armingStatus, active,
                                      NoneActiveIn(repository.sensors), policy);
              repository.alarmWrites == old(repository.alarmWrites) + Written(w) &&
              repository.alarmStatus == Apply(old(repository.alarmStatus), w)
    {
      sensor.SetActive(active);
      var quiet := NoneActive(repository.sensors);
      SetAlarmStatus(SensorDecision(repository.alarmStatus, repository.armingStatus, active, quiet, policy));
    }

    /** `cat` is the classifier's verdict on the camera frame. */
    method ProcessImage(cat: bool)
      modifies this`catDetected, repository`alarmStatus, repository`alarmWrites
      ensures catDetected == cat
      ensures var w := ImageDecision(cat, repository.armingStatus, NoneActiveIn(repository.sensors), policy);
              repository.alarmWrites == old(repository.alarmWrites) + Written(w) &&
              repository.alarmStatus == Apply(old(repository.alarmStatus), w)
    {
      catDetected := cat;
      var quiet := NoneActive(repository.sensors);
      SetAlarmStatus(ImageDecision(cat, repository.armingStatus, quiet, policy));
    }

    method SetArmingStatus(status: ArmingStatus)
      modifies repository`armingStatus, repository`alarmStatus, repository`alarmWrites, repository.sensors
      ensures repository.armingStatus == status
      ensures status == Disarmed ==> forall s :: s in repository.sensors ==> s.active == old(s.active)
      ensures status != Disarmed ==> NoneActiveIn(repository.sensors)
      ensures repository.alarmWrites == old(repository.alarmWrites) + Written(ArmingDecision(status, catDetected))
      ensures repository.alarmStatus == Apply(old(repository.alarmStatus), ArmingDecision(status, catDetected))
    {
      if status != Disarmed {
        DeactivateAll(repository.sensors);
      }
      // the sensors are reset before a remembered cat raises the alarm
      SetAlarmStatus(ArmingDecision(status, catDetected));
      repository.SetArmingStatus(status);
    }

    method AddSensor(sensor: Sensor)
      modifies repository`sensors
      ensures repository.sensors == old(repository.sensors) + {sensor}
    {
      repository.AddSensor(sensor);
    }

    method RemoveSensor(sensor: Sensor)
      modifies repository`sensors
      ensures repository.sensors == old(repository.sensors) - {sensor}
    {
      repository.RemoveSensor(sensor);
    }

    /** Registration is set membership, not a count. */
    predicate HasStatusListener(listener: StatusListener)
      reads this
    {
      listener in statusListeners
    }

    method AddStatusListener(listener: StatusListener)
      modifies this`statusListeners
      ensures statusListeners == old(statusListeners) + {listener}
      ensures HasStatusListener(listener)
    {
      statusListeners := statusListeners + {listener};
    }

    method RemoveStatusListener(listener: StatusListener)
      modifies this`statusListeners
      ensures statusListeners == old(statusListeners) - {listener}
      ensures !HasStatusListener(listener)
    {
      statusListeners := statusListeners - {listener};
    }
  }
}
