# Catpoint alarm decision engine, in Dafny

This project models `SecurityService`, the engine of the Catpoint home-security
application that decides the alarm status. It takes three kinds of input: door,
window and motion sensors turning active or inactive, camera frames that a
classifier marks as "cat" or "no cat", and changes to the arming mode. The
engine's own source is not part of this model. The only evidence for it is its
JUnit test suite, `SecurityServiceTest.java`, so the model implements the
behaviour those tests check. Where the tests say nothing, the model makes the
choices listed below.

Where the state lives:

- `SecurityData.SecurityRepository` holds the alarm status (`NoAlarm <
  PendingAlarm < Alarm`), the arming status (`Disarmed`, `ArmedHome`,
  `ArmedAway`) and the set of `Sensor` objects.
  - Its `alarmWrites` field records every `SetAlarmStatus` call in order. This
    stands in for the test suite's `verify(..., times(n)).setAlarmStatus(...)`
    and `never()` checks.
  - Its constructor accepts any pre-state. This replaces the suite's stubbed
    `getAlarmStatus()` / `getArmingStatus()` / `getSensors()` answers.
- `Service.SecurityService` holds the repository, the listener set, the last
  classifier verdict (`catDetected`) and a `Policy`.
  - Each operation is a method. Its postcondition gives the new state and the
    writes it made, in terms of a decision function in `AlarmRules`.
- `AlarmRules` holds those decision functions. Their contracts describe each
  decision by severity and by exactly when a write happens. It also holds
  lemmas about sequences of sensor changes. `ServiceTest.SensorChangesFollowSensorRun`
  shows that a series of `ChangeSensorActivationStatus` calls on a real
  repository ends where `SensorRun` says.
- `ServiceTest` restates each test as a method. The method builds the pre-state,
  runs the operations through the class, and returns what the repository
  recorded. The method's postcondition is the test's assertion, often for more
  pre-states than the test itself uses. `ServiceTest` also models the
  `createSensors` helper, including the proof that names `sensor#0 ...` never
  collide.
  - Four methods go beyond the suite's own tests.
    - `PendingDeactivationWithOtherActiveKeepsAlarm` is the other branch of the
      rule behind lines 73-81.
    - `SensorChangesFollowSensorRun` ties a series of real calls to `SensorRun`.
    - `ListenerRegistrationFollowsLastCall` covers any history of listener
      registrations.
    - `PendingActivateThenDeactivateChained` runs the two calls of lines 74-81
      back to back on the model's repository.

Rules the tests force:

- Two tests show that a call which leaves the sensor's flag unchanged is not
  ignored.
  - Activating an already-active sensor under `PendingAlarm` still writes
    `Alarm` (lines 92-99).
  - "Deactivating" an already-inactive sensor under `Alarm` while disarmed still
    writes `PendingAlarm` (lines 158-166).
- Under `Alarm` while armed, setting an inactive sensor to true or to false
  writes nothing (lines 83-90).

Modelling choices where no test decides:

- The sensor rule never looks at the previous flag. The rule "a call that does
  not change the flag is ignored" is therefore not modelled anywhere.
- Deactivating a sensor under `Alarm` lowers the status to `PendingAlarm` only
  while disarmed. While armed, it writes nothing for a sensor that was active
  too. Lines 83-90 decide this only for a sensor that was already inactive.
- The writes of `ProcessImage` and `SetArmingStatus` happen even when the
  stored value would not change. Examples: disarming from `NoAlarm`, or a cat
  frame while `Alarm` is already set. Lines 108-116 and 128-133 leave the alarm
  status unstubbed, so they do not decide this.
- A no-cat frame with every sensor inactive writes `NoAlarm` from any alarm
  status, `Alarm` included. The test at lines 118-125 leaves the alarm status
  unstubbed, so it does not settle what happens from `Alarm`.
- Arming home or away resets each sensor's flag directly, without applying the
  sensor rule. No alarm status is written for the reset. For example, arming
  away from `PendingAlarm` with one active sensor writes nothing and leaves
  `PendingAlarm` stored while every sensor is inactive. Lines 136-144 check only
  the flags.

The tests leave two cases open. They are kept as explicit choices in `Policy`:

- `escalateWhileDisarmed`: whether activating a sensor from `NoAlarm` while
  disarmed writes `PendingAlarm`.
- `alarmOnCatWhileAway`: whether a cat frame while armed-away writes `Alarm`.

Every scenario method holds for both values of each choice.

## Model

| member | source | states |
|---|---|---|
| SecurityData.Sensor.constructor | udasecurity/Security/src/test/java/com/udacity/catpoint/security/service/SecurityServiceTest.java:52 | a new sensor has the given name and type and is inactive |
| SecurityData.Sensor.SetActive | udasecurity/Security/src/test/java/com/udacity/catpoint/security/service/SecurityServiceTest.java:95 | sets the flag directly and nothing else, with no alarm rule applied |
| SecurityData.SecurityRepository.constructor | udasecurity/Security/src/test/java/com/udacity/catpoint/security/service/SecurityServiceTest.java:57-58 | the repository may start in any alarm status, arming status and sensor set, with no write recorded |
| SecurityData.SecurityRepository.SetAlarmStatus | udasecurity/Security/src/test/java/com/udacity/catpoint/security/service/SecurityServiceTest.java:61 | stores the status and appends exactly that one write to the record; arming status and sensors are untouched |
| SecurityData.SecurityRepository.SetArmingStatus | udasecurity/Security/src/test/java/com/udacity/catpoint/security/service/SecurityServiceTest.java:153 | stores the new arming status and nothing else |
| SecurityData.SecurityRepository.AddSensor | udasecurity/Security/src/test/java/com/udacity/catpoint/security/service/SecurityServiceTest.java:187 | the sensor set grows by exactly the given sensor |
| SecurityData.SecurityRepository.RemoveSensor | udasecurity/Security/src/test/java/com/udacity/catpoint/security/service/SecurityServiceTest.java:194 | the sensor set loses exactly the given sensor |
| AlarmRules.SensorDecision | udasecurity/Security/src/test/java/com/udacity/catpoint/security/service/SecurityServiceTest.java:55-106 | activation writes only one level up and deactivation only one level down; activation writes exactly under PendingAlarm, or under NoAlarm when armed (or when the policy allows it while disarmed); deactivation writes exactly under Alarm while disarmed, or under PendingAlarm when no sensor stays active |
| AlarmRules.ImageDecision | udasecurity/Security/src/test/java/com/udacity/catpoint/security/service/SecurityServiceTest.java:108-125 | a frame never writes PendingAlarm; it writes Alarm exactly for a cat while armed-home (or armed-away if the policy says so), never while disarmed, and NoAlarm exactly for no cat with every sensor inactive |
| AlarmRules.ArmingDecision | udasecurity/Security/src/test/java/com/udacity/catpoint/security/service/SecurityServiceTest.java:128-156 | disarming writes NoAlarm and is the only arming change that does; Alarm is written exactly when arming home over a remembered cat |
| AlarmRules.SensorRunClimbsOneLevelPerActivation | udasecurity/Security/src/test/java/com/udacity/catpoint/security/service/SecurityServiceTest.java:55-81 | over any series of sensor changes, the final severity is at most the starting severity plus the number of activations |
| AlarmRules.AlarmFromNoAlarmNeedsTwoActivations | udasecurity/Security/src/test/java/com/udacity/catpoint/security/service/SecurityServiceTest.java:55-71 | sensor changes take NoAlarm to Alarm only by way of PendingAlarm: at least two activations are needed |
| AlarmRules.DeactivationsNeverRaise | udasecurity/Security/src/test/java/com/udacity/catpoint/security/service/SecurityServiceTest.java:73-106 | a series of deactivations never ends above the starting severity |
| Service.NoneActive | udasecurity/Security/src/test/java/com/udacity/catpoint/security/service/SecurityServiceTest.java:118-125 | the loop over the sensor set returns true exactly when no sensor in it is active |
| Service.DeactivateAll | udasecurity/Security/src/test/java/com/udacity/catpoint/security/service/SecurityServiceTest.java:136-144 | the loop leaves every sensor in the set inactive and modifies nothing but those sensors |
| Service.SecurityService.constructor | udasecurity/Security/src/test/java/com/udacity/catpoint/security/service/SecurityServiceTest.java:49-53 | a new engine uses the given repository, has no listeners and no remembered cat |
| Service.SecurityService.SetAlarmStatus | udasecurity/Security/src/test/java/com/udacity/catpoint/security/service/SecurityServiceTest.java:61 | the one write path: a decision writes once or not at all, and the stored status follows the decision |
| Service.SecurityService.ChangeSensorActivationStatus | udasecurity/Security/src/test/java/com/udacity/catpoint/security/service/SecurityServiceTest.java:55-106 | the sensor takes the new flag; the writes and the new alarm status are those of SensorDecision, applied to the old alarm status, the arming status and whether every repository sensor is now inactive |
| Service.SecurityService.ProcessImage | udasecurity/Security/src/test/java/com/udacity/catpoint/security/service/SecurityServiceTest.java:108-125 | the verdict is remembered; the writes and new status are those of ImageDecision on the verdict, the arming status and the sensors |
| Service.SecurityService.SetArmingStatus | udasecurity/Security/src/test/java/com/udacity/catpoint/security/service/SecurityServiceTest.java:128-156 | the arming status is stored; arming home or away leaves every repository sensor inactive, disarming changes no sensor flag; the writes are those of ArmingDecision on the new status and the remembered verdict |
| Service.SecurityService.AddSensor | udasecurity/Security/src/test/java/com/udacity/catpoint/security/service/SecurityServiceTest.java:183-188 | delegates to the repository: the sensor set grows by the sensor, no alarm status is written |
| Service.SecurityService.RemoveSensor | udasecurity/Security/src/test/java/com/udacity/catpoint/security/service/SecurityServiceTest.java:190-195 | delegates to the repository: the sensor set loses the sensor, no alarm status is written |
| Service.SecurityService.AddStatusListener | udasecurity/Security/src/test/java/com/udacity/catpoint/security/service/SecurityServiceTest.java:168-173 | the listener set gains the listener, which is then registered |
| Service.SecurityService.RemoveStatusListener | udasecurity/Security/src/test/java/com/udacity/catpoint/security/service/SecurityServiceTest.java:175-181 | the listener set loses the listener, which is then not registered |
| ServiceTest.Decimal | udasecurity/Security/src/test/java/com/udacity/catpoint/security/service/SecurityServiceTest.java:43 | the decimal form used for sensor names is never empty |
| ServiceTest.DecimalInjective | udasecurity/Security/src/test/java/com/udacity/catpoint/security/service/SecurityServiceTest.java:43 | distinct counters have distinct decimal forms |
| ServiceTest.SensorNameInjective | udasecurity/Security/src/test/java/com/udacity/catpoint/security/service/SecurityServiceTest.java:43 | distinct counters give distinct sensor names |
| ServiceTest.CreateSensors | udasecurity/Security/src/test/java/com/udacity/catpoint/security/service/SecurityServiceTest.java:39-47 | builds exactly n new inactive door sensors, named sensor#0 to sensor#(n-1), no two with the same identity |
| ServiceTest.SensorChangesFollowSensorRun | udasecurity/Security/src/test/java/com/udacity/catpoint/security/service/SecurityServiceTest.java:73-81 | any series of sensor changes on a single-sensor repository, from any state, ends in the status SensorRun gives for the same series |
| ServiceTest.ArmedActivationSetsPendingAlarm | udasecurity/Security/src/test/java/com/udacity/catpoint/security/service/SecurityServiceTest.java:55-62 | armed home and NoAlarm: activating a new sensor writes PendingAlarm exactly once and nothing else |
| ServiceTest.ArmedPendingActivationSetsAlarm | udasecurity/Security/src/test/java/com/udacity/catpoint/security/service/SecurityServiceTest.java:64-71 | armed home and PendingAlarm: activating a new sensor writes Alarm exactly once and nothing else |
| ServiceTest.PendingLastDeactivationSetsNoAlarm | udasecurity/Security/src/test/java/com/udacity/catpoint/security/service/SecurityServiceTest.java:73-81 | PendingAlarm under any arming status: deactivating the only active sensor writes NoAlarm exactly once |
| ServiceTest.PendingDeactivationWithOtherActiveKeepsAlarm | udasecurity/Security/src/test/java/com/udacity/catpoint/security/service/SecurityServiceTest.java:73-81 | the other branch of the rule behind this test, which the suite does not exercise: under PendingAlarm, deactivating one of two active sensors writes nothing and PendingAlarm stays |
| ServiceTest.PendingActivateThenDeactivateChained | udasecurity/Security/src/test/java/com/udacity/catpoint/security/service/SecurityServiceTest.java:74-81 | the same two calls run back to back on a repository that reflects its writes: the first writes Alarm, and the second, under Alarm while armed, writes nothing, so the run ends at Alarm with writes [Alarm] and no NoAlarm write |
| ServiceTest.ArmedAlarmNotAffectedBySensors | udasecurity/Security/src/test/java/com/udacity/catpoint/security/service/SecurityServiceTest.java:83-90 | Alarm while armed: setting a sensor to true or to false writes nothing and Alarm stays |
| ServiceTest.PendingReactivationSetsAlarm | udasecurity/Security/src/test/java/com/udacity/catpoint/security/service/SecurityServiceTest.java:92-99 | PendingAlarm under any arming status: activating an already active sensor writes Alarm exactly once |
| ServiceTest.InactiveDeactivationWritesNothing | udasecurity/Security/src/test/java/com/udacity/catpoint/security/service/SecurityServiceTest.java:101-106 | NoAlarm under any arming status: deactivating an inactive sensor writes nothing |
| ServiceTest.CatWhileArmedHomeSetsAlarm | udasecurity/Security/src/test/java/com/udacity/catpoint/security/service/SecurityServiceTest.java:108-116 | armed home: a cat frame writes Alarm exactly once from any alarm status, whatever the sensors |
| ServiceTest.NoCatWithQuietSensorsSetsNoAlarm | udasecurity/Security/src/test/java/com/udacity/catpoint/security/service/SecurityServiceTest.java:118-125 | every sensor inactive: a no-cat frame writes NoAlarm exactly once, from any alarm and arming status |
| ServiceTest.DisarmingSetsNoAlarm | udasecurity/Security/src/test/java/com/udacity/catpoint/security/service/SecurityServiceTest.java:128-133 | disarming from any state writes NoAlarm exactly once and leaves NoAlarm stored |
| ServiceTest.ArmingResetsSensors | udasecurity/Security/src/test/java/com/udacity/catpoint/security/service/SecurityServiceTest.java:136-144 | from any alarm and arming status, arming home or away leaves all three created sensors inactive, even after they were all made active, and writes nothing |
| ServiceTest.RememberedCatSetsAlarmOnArmingHome | udasecurity/Security/src/test/java/com/udacity/catpoint/security/service/SecurityServiceTest.java:146-156 | from any alarm status, a cat seen while disarmed writes nothing; the following arm-home writes Alarm, exactly once in the whole run |
| ServiceTest.DisarmedAlarmDeactivationSetsPendingAlarm | udasecurity/Security/src/test/java/com/udacity/catpoint/security/service/SecurityServiceTest.java:158-166 | Alarm while disarmed: deactivating an inactive sensor writes PendingAlarm exactly once |
| ServiceTest.AddedListenerIsRegistered | udasecurity/Security/src/test/java/com/udacity/catpoint/security/service/SecurityServiceTest.java:168-173 | from any repository state, after adding a listener it is registered |
| ServiceTest.RemovedListenerIsUnregistered | udasecurity/Security/src/test/java/com/udacity/catpoint/security/service/SecurityServiceTest.java:175-181 | from any repository state, after adding a listener (once or twice) and removing it once, it is not registered |
| ServiceTest.ListenerRegistrationFollowsLastCall | udasecurity/Security/src/test/java/com/udacity/catpoint/security/service/SecurityServiceTest.java:168-181 | from any repository state, after any series of AddStatusListener and RemoveStatusListener calls, HasStatusListener holds for a listener exactly when the last call naming it was an add (never, if no call names it) |
| ServiceTest.AddSensorStoresIt | udasecurity/Security/src/test/java/com/udacity/catpoint/security/service/SecurityServiceTest.java:183-188 | from any state, adding a sensor gives the old set plus that sensor and writes no alarm status |
| ServiceTest.RemoveSensorDropsIt | udasecurity/Security/src/test/java/com/udacity/catpoint/security/service/SecurityServiceTest.java:190-195 | from any state, removing a sensor gives the old set minus that sensor and writes no alarm status |

## Left out

- The image classifier. `ImageService.imageContainsCat`, `BufferedImage` and the confidence threshold are not modelled. `ProcessImage` takes the classifier's verdict as a boolean.
- Mockito itself. The model has no mocks, stubbing or strict-stub checks. Repository stubs become the repository's constructor arguments. `verify` becomes the `alarmWrites` record.
- Unstubbed mock answers. A mock returns `null` when nothing is stubbed; the model does not. Where a test leaves the arming status unstubbed, the scenario quantifies over every arming status, or every armed status at lines 83-90. Where a test leaves the alarm status unstubbed, the scenario quantifies over every alarm status, with one exception. At lines 101-106 the unstubbed alarm status is modelled as `NoAlarm`, because from `Alarm` while disarmed the same call writes `PendingAlarm`.
- The mock repository's stale reads. At lines 74-81 the mock keeps answering `PendingAlarm` after the first write. The model's repository reflects its writes, so the two calls of that test are two single-step scenarios that each start from `PendingAlarm`. Run back to back on the model's repository, the two calls end at `Alarm` with writes `[Alarm]` and no `NoAlarm` write (`ServiceTest.PendingActivateThenDeactivateChained`).
- Listener notification. The engine notifies listeners after each status change, but the callback and its payload are not modelled. Only set membership is.
- Sensor identity. Java's `HashSet` compares sensors by (name, type) through hashing and equality. The model compares sensor objects by reference, and `CreateSensors` proves that its sensors' names are distinct.
- Concurrency. Every operation is assumed to run alone; serialising the calls is not modelled.
- Failures of the repository or the classifier. The model treats both as always succeeding.
- AlarmRules.SensorDecision: ignores the sensor's previous flag even where no test forces that. Three untested cases show the effect. An active sensor deactivated under `Alarm` while armed writes nothing; the rule "deactivation lowers `Alarm` one level" would give `PendingAlarm`. An active sensor re-activated under `NoAlarm` while armed writes `PendingAlarm`; a rule that such calls do nothing would write nothing. An inactive sensor deactivated again under `PendingAlarm`, with every sensor inactive, writes `NoAlarm`.
- Cases no test constrains. Activation from `NoAlarm` while disarmed, and a cat seen while armed-away, are parameters (`Policy`). The model does not fix their outcome.
