/**
 * The decisions of the alarm engine, as functions of what each operation
 * reads. Each returns the alarm status the operation writes to the
 * repository, or None when it writes nothing.
 */
module AlarmRules {
  import opened SecurityData

  datatype Option<T> = None | Some(value: T)

  /**
   * The two cases no observed behaviour settles, kept as explicit choices:
   * whether activating a sensor from NoAlarm escalates while disarmed, and
   * whether a cat seen while armed-away raises the alarm.
   */
  datatype Policy = Policy(escalateWhileDisarmed: bool, alarmOnCatWhileAway: bool)

  /** The writes a decision performs: none or exactly one. */
  function Written(w: Option<AlarmStatus>): (writes: seq<AlarmStatus>)
  {
    if w.Some? then [w.value] else []
  }

  /** The alarm status after a decision has been applied. */
  function Apply(alarm: AlarmStatus, w: Option<AlarmStatus>): (after: AlarmStatus)
  {
    if w.Some? then w.value else alarm
  }

  /**
   * A sensor is set to `active` while the repository holds `alarm` and
   * `arming`; `quiet` says that, after the update, no sensor of the
   * repository is active. The previous flag of the sensor plays no part.
   */
  function SensorDecision(alarm: AlarmStatus, arming: ArmingStatus, active: bool, quiet: bool, policy: Policy): (w: Option<AlarmStatus>)
    // activation only ever climbs one level, deactivation only ever drops one
    ensures w.Some? && active ==> Severity(w.value) == Severity(alarm) + 1
    ensures w.Some? && !active ==> Severity(w.value) + 1 == Severity(alarm)
    // when activation writes
    ensures active ==>
      (w.Some? <==> alarm == PendingAlarm || (alarm == NoAlarm && (arming != Disarmed || policy.escalateWhileDisarmed)))
    // when deactivation writes
    ensures !active ==>
      (w.Some? <==> (alarm == Alarm && arming == Disarmed) || (alarm == PendingAlarm && quiet))
  {
    if active then
      match alarm
      case NoAlarm => if arming != Disarmed || policy.escalateWhileDisarmed then Some(PendingAlarm) else None
      case PendingAlarm => Some(Alarm)
      case Alarm => None
    else
      match alarm
      case NoAlarm => None
      case PendingAlarm => if quiet then Some(NoAlarm) else None
      case Alarm => if arming == Disarmed then Some(PendingAlarm) else None
  }

  /**
   * The classifier returned `cat` while the repository holds `arming`;
   * `quiet` says that no sensor of the repository is active.
   */
  function ImageDecision(cat: bool, arming: ArmingStatus, quiet: bool, policy: Policy): (w: Option<AlarmStatus>)
    ensures w != Some(PendingAlarm)
    // a cat raises the alarm when armed at home (or away, if the policy says so), never when disarmed
    ensures w == Some(Alarm) <==> cat && (arming == ArmedHome || (arming == ArmedAway && policy.alarmOnCatWhileAway))
    // no cat clears the alarm exactly when every sensor is inactive
    ensures w == Some(NoAlarm) <==> !cat && quiet
  {
    if cat then
      if arming == ArmedHome || (arming == ArmedAway && policy.alarmOnCatWhileAway) then Some(Alarm) else None
    else
      if quiet then Some(NoAlarm) else None
  }

  /** The arming status is set to `status` while the last verdict was `catSeen`. */
  function ArmingDecision(status: ArmingStatus, catSeen: bool): (w: Option<AlarmStatus>)
    ensures w != Some(PendingAlarm)
    // disarming always clears the alarm
    ensures w == Some(NoAlarm) <==> status == Disarmed
    // arming at home over a remembered cat raises it
    ensures w == Some(Alarm) <==> status == ArmedHome && catSeen
  {
    match status
    case Disarmed => Some(NoAlarm)
    case ArmedHome => if catSeen then Some(Alarm) else None
    case ArmedAway => None
  }

  /** One sensor change: the new flag and whether every sensor is then inactive. */
  datatype SensorEvent = SensorEvent(active: bool, quiet: bool)

  /** The alarm status after a series of sensor changes at a fixed arming status. */
  function SensorRun(alarm: AlarmStatus, arming: ArmingStatus, policy: Policy, events: seq<SensorEvent>): (final: AlarmStatus)
    decreases |events|
  {
    if events == [] then alarm
    else
      var e := events[0];
      SensorRun(Apply(alarm, SensorDecision(alarm, arming, e.active, e.quiet, policy)), arming, policy, events[1..])
  }

  /** How many of the changes are activations. */
  function Activations(events: seq<SensorEvent>): (count: nat)
  {
    if events == [] then 0 else (if events[0].active then 1 else 0) + Activations(events[1..])
  }

  /** Each activation raises the alarm by at most one level; deactivations never raise it. */
  lemma {:induction false} SensorRunClimbsOneLevelPerActivation(alarm: AlarmStatus, arming: ArmingStatus, policy: Policy, events: seq<SensorEvent>)
    ensures Severity(SensorRun(alarm, arming, policy, events)) <= Severity(alarm) + Activations(events)
    decreases |events|
  {
    if events != [] {
      var e := events[0];
      var next := Apply(alarm, SensorDecision(alarm, arming, e.active, e.quiet, policy));
      SensorRunClimbsOneLevelPerActivation(next, arming, policy, events[1..]);
    }
  }

  /**
   * Sensors alone take a quiet system to Alarm only through PendingAlarm:
   * it takes at least two activations.
   */
  lemma AlarmFromNoAlarmNeedsTwoActivations(arming: ArmingStatus, policy: Policy, events: seq<SensorEvent>)
    requires SensorRun(NoAlarm, arming, policy, events) == Alarm
    ensures Activations(events) >= 2
  {
    SensorRunClimbsOneLevelPerActivation(NoAlarm, arming, policy, events);
  }

  /** Without any activation, the alarm never ends above where it started. */
  lemma DeactivationsNeverRaise(alarm: AlarmStatus, arming: ArmingStatus, policy: Policy, events: seq<SensorEvent>)
    requires forall i :: 0 <= i < |events| ==> !events[i].active
    ensures Severity(SensorRun(alarm, arming, policy, events)) <= Severity(alarm)
  {
    NoActivations(events);
    SensorRunClimbsOneLevelPerActivation(alarm, arming, policy, events);
  }

  lemma {:induction false} NoActivations(events: seq<SensorEvent>)
    requires forall i :: 0 <= i < |events| ==> !events[i].active
    ensures Activations(events) == 0
    decreases |events|
  {
    if events != [] {
      assert !events[0].active;
      NoActivations(events[1..]);
    }
  }
}
