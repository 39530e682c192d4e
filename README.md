# Alarm controller of the home security service

This project models the decision engine of a home security monitor. The
service reads an arming status (disarmed, armed at home, armed away), an
alarm status (no alarm, pending alarm, alarm) and a registry of door,
window and motion sensors from its repository. It reacts to three inputs:

- a sensor being set active or inactive;
- the operator changing the arming status;
- a camera image, reduced to the cat-detector's verdict.

It then writes the alarm status back through the repository. The service
also keeps a set of status listeners.

The behaviour is taken from the JUnit suite of the security service
(`SecurityServiceTest.java`). The suite's Mockito checks ("setAlarmStatus
called exactly once", "never called") become a ghost log, `alarmWrites`, in
the repository. Every operation appends exactly the writes it makes.

## Layout

- `security_data.dfy` (module `SecurityData`): the three status types,
  the `Sensor` class (fixed name and type, mutable `active` flag) and the
  `StatusListener` reference type.
- `alarm_rules.dfy` (module `AlarmRules`): the transition rules on
  values. `SensorChangeWrite`, `ArmingWrite` and `ImageWrite` decide, per
  input, whether the alarm status is written and with what value. `Run`
  folds them over any sequence of inputs. The lemmas state what holds
  for every such sequence.
- `repository.dfy` (module `Repository`): the `SecurityRepository`
  class, the store of record, with the ghost write log and a registry that
  holds at most one sensor per device (name and type).
- `service.dfy` (module `Service`): the `SecurityService` class. Each
  operation's postcondition ties the new repository state and the new log
  entries to the rule functions. It also ties them to `AlarmRules.Step`.
  With `AlarmRules.RunAppend`, a sequence of service calls is the `Run` of
  their inputs, so the lemmas about `Run` apply to it.
- `scenarios.dfy` (module `Scenarios`): client methods that replay the
  suite's tests against the class contracts alone.
  - `ReactivationEscalatesByRun` reaches Test 5's result through
    `RunAppend` and `TwoActivationsRaiseAlarm`.
  - Test 3 is replayed with one step replaced; see "## Left out".

## Which rules the model follows

The test suite is the only behavioural text. Two general rules one might
expect do not hold in it, and the model follows the suite:

- "A request that does not change the sensor's value is a no-op" does not
  hold. Re-activating a sensor that is already active while the alarm is
  pending escalates to alarm (Test 5).
- "Disarmed always means no alarm, and an alarm ignores every sensor
  event" does not hold. While in alarm and disarmed, a deactivation
  request writes pending alarm (Test 12). This is an explicit branch of
  the sensor rule. In this model, `setArmingStatus(DISARMED)` does write no alarm
  (Test 9), and the state then stays at no alarm until the system is armed
  again (`DisarmHolds`). Once a disarm has happened, alarm cannot be
  reached again while disarmed. So the Test 12 branch only applies to a
  store that starts out in alarm while disarmed.
- Deactivating an inactive sensor never writes while armed (Test 6), for
  every alarm status. Only a sensor that actually goes from active to
  inactive can clear a pending alarm (Test 3).
- Arming resets every registered sensor to inactive (Test 10). The suite
  only shows that arming does not write no alarm (Test 8). That arming
  writes no alarm status at all is this model's choice: Requirement 11 is
  read as its test body (a cat seen while already armed at home), and no
  earlier cat verdict is remembered (see `ArmingWrite` under "## Left out").
- A cat seen while armed at home writes alarm each time, even when the
  alarm is already raised. The suite does not distinguish this from
  "only if changed".

## Model

| member | source | states |
|---|---|---|
| `SecurityData.Sensor.constructor` | UdaSecurityParentProject3/src/Security/src/test/java/com/udacity/security/SecurityServiceTest.java:39-41 | a new sensor has the given name and type and starts inactive |
| `AlarmRules.SensorChangeWrite` | UdaSecurityParentProject3/src/Security/src/test/java/com/udacity/security/SecurityServiceTest.java:53-136 | each write is characterised in both directions. Pending alarm is written iff (no alarm, armed, activation) or (alarm, disarmed, deactivation). Alarm is written iff pending, armed and activation, whether or not the sensor was already active. No alarm is written iff pending and the last active sensor turns off. Alarm ignores sensor changes while armed. Deactivating an inactive sensor writes nothing while armed. Every write changes the status |
| `AlarmRules.ArmingWrite` | UdaSecurityParentProject3/src/Security/src/test/java/com/udacity/security/SecurityServiceTest.java:166-191 | disarming writes no alarm, whatever the alarm status was; arming writes nothing |
| `AlarmRules.ImageWrite` | UdaSecurityParentProject3/src/Security/src/test/java/com/udacity/security/SecurityServiceTest.java:138-164 | a cat while armed at home writes alarm; no cat while no sensor is active writes no alarm; nothing else writes |
| `AlarmRules.Run` | UdaSecurityParentProject3/src/Security/src/test/java/com/udacity/security/SecurityServiceTest.java:111-122 | over any sequence of inputs, there are no more writes than inputs, and the stored alarm status is the last value written (or the initial one if none was) |
| `AlarmRules.RunAppend` | UdaSecurityParentProject3/src/Security/src/test/java/com/udacity/security/SecurityServiceTest.java:109-122 | running a sequence and then one more input equals running the extended sequence: the status is stepped and the writes are extended by that input's write. So successive service calls are one `Run` |
| `AlarmRules.AlarmHoldsUnderSensorEvents` | UdaSecurityParentProject3/src/Security/src/test/java/com/udacity/security/SecurityServiceTest.java:96-107 | in alarm while armed, any sequence of sensor changes keeps the alarm and writes nothing |
| `AlarmRules.TwoActivationsRaiseAlarm` | UdaSecurityParentProject3/src/Security/src/test/java/com/udacity/security/SecurityServiceTest.java:109-122 | while armed, any two or more activations, repeated or not, end in alarm from any starting status |
| `AlarmRules.ActivationsNeverLower` | UdaSecurityParentProject3/src/Security/src/test/java/com/udacity/security/SecurityServiceTest.java:53-78 | activations never lower the alert level or change the arming status; while disarmed they write nothing |
| `AlarmRules.DeactivationsNeverRaise` | UdaSecurityParentProject3/src/Security/src/test/java/com/udacity/security/SecurityServiceTest.java:80-94 | deactivations never raise the alert level, armed or disarmed |
| `AlarmRules.DisarmedStaysQuiet` | UdaSecurityParentProject3/src/Security/src/test/java/com/udacity/security/SecurityServiceTest.java:166-175 | disarmed at no alarm, any sensor changes and images leave both statuses as they are, and every write is no alarm |
| `AlarmRules.DisarmHolds` | UdaSecurityParentProject3/src/Security/src/test/java/com/udacity/security/SecurityServiceTest.java:166-175 | after a disarm, from any state, the first write is no alarm and the state stays disarmed at no alarm until the next arming change |
| `Repository.SecurityRepository.constructor` | UdaSecurityParentProject3/src/Security/src/test/java/com/udacity/security/SecurityServiceTest.java:29-30 | a store holding the given statuses, an empty registry and an empty write log |
| `Repository.SecurityRepository.SetAlarmStatus` | UdaSecurityParentProject3/src/Security/src/test/java/com/udacity/security/SecurityServiceTest.java:63 | stores the status and appends it to the write log; nothing else changes |
| `Repository.SecurityRepository.SetArmingStatus` | UdaSecurityParentProject3/src/Security/src/test/java/com/udacity/security/SecurityServiceTest.java:29-30 | stores the arming status; the alarm status, log and registry are unchanged |
| `Repository.SecurityRepository.AddSensor` | UdaSecurityParentProject3/src/Security/src/test/java/com/udacity/security/SecurityServiceTest.java:220-228 | adds the sensor unless its device is already registered, in which case the registry is unchanged; at most one sensor per device is kept |
| `Repository.SecurityRepository.RemoveSensor` | UdaSecurityParentProject3/src/Security/src/test/java/com/udacity/security/SecurityServiceTest.java:230-238 | the registry afterwards is exactly the old one minus the sensor for that device |
| `Repository.SecurityRepository.NoSensorActive` | UdaSecurityParentProject3/src/Security/src/test/java/com/udacity/security/SecurityServiceTest.java:189 | true iff no registered sensor is active, found by visiting each sensor |
| `Service.SecurityService.constructor` | UdaSecurityParentProject3/src/Security/src/test/java/com/udacity/security/SecurityServiceTest.java:43-51 | a service over the given repository with no listeners |
| `Service.SecurityService.ChangeSensorActivationStatus` | UdaSecurityParentProject3/src/Security/src/test/java/com/udacity/security/SecurityServiceTest.java:206-218 | sets the sensor's flag; the log gains exactly the write `SensorChangeWrite` calls for (including Test 12's pending write when in alarm and disarmed), judged on the statuses before the call and the registry after it; arming status and registry membership are unchanged |
| `Service.SecurityService.SetArmingStatus` | UdaSecurityParentProject3/src/Security/src/test/java/com/udacity/security/SecurityServiceTest.java:177-191 | stores the new arming status; disarming logs exactly one no-alarm write and leaves sensors untouched; arming leaves every registered sensor inactive and logs nothing |
| `Service.SecurityService.ProcessImage` | UdaSecurityParentProject3/src/Security/src/test/java/com/udacity/security/SecurityServiceTest.java:138-164 | the log gains exactly the write `ImageWrite` calls for; sensors and arming status are unchanged |
| `Service.SecurityService.AddSensor` | UdaSecurityParentProject3/src/Security/src/test/java/com/udacity/security/SecurityServiceTest.java:220-228 | delegates to the repository: the device is registered afterwards and no status is written |
| `Service.SecurityService.RemoveSensor` | UdaSecurityParentProject3/src/Security/src/test/java/com/udacity/security/SecurityServiceTest.java:230-238 | delegates to the repository: the device is unregistered and no status is written |
| `Service.SecurityService.AddStatusListener` | UdaSecurityParentProject3/src/Security/src/test/java/com/udacity/security/SecurityServiceTest.java:239-248 | the listener set gains the listener |
| `Service.SecurityService.RemoveStatusListener` | UdaSecurityParentProject3/src/Security/src/test/java/com/udacity/security/SecurityServiceTest.java:250-260 | the listener set loses the listener; adding a listener not yet held, then removing it, leaves the set as before |
| `Service.SecurityService.GetStatusListeners` | UdaSecurityParentProject3/src/Security/src/test/java/com/udacity/security/SecurityServiceTest.java:246 | returns the current listener set |
| `Service.SecurityService.GetAlarmStatus` | UdaSecurityParentProject3/src/Security/src/test/java/com/udacity/security/SecurityServiceTest.java:90 | returns the stored alarm status |

## Left out

- The image classifier (`ImageService.imageContainsCat`, a foreign service backed by a remote recogniser): `ProcessImage` takes its boolean verdict as a parameter. The image and the float confidence threshold are not modelled, and neither are classifier failures.
- Calls out to status listeners (alarm, sensor and cat notifications): only the set of subscribers is modelled.
- Persistence of the repository and the repository's `updateSensor`. The service flips the sensor object passed to it in place. A sensor that is not the registered object for its device does not change the registry.
- Store failures and concurrency: the model is single-threaded, in memory, and every store call succeeds.
- The suite's mocked store discards every status written to it and keeps returning the stubbed one; this model's store keeps what is written. In Test 3 the activation step therefore raises the alarm here, which then ignores the deactivation. `LastSensorOffClearsPending` instead sets the sensor active directly before deactivating it.
- `ArmingWrite`: arming never writes the alarm status. Requirement 11's comment (a cat shown while the system is armed at home raises the alarm) could also mean that arming at home while the last image showed a cat raises it. The model follows the test body, which only processes a cat image while already armed at home. It keeps no last cat verdict, so a cat image while disarmed followed by arming at home leaves the alarm status as it was.
- Null statuses and listeners. The suite's unstubbed mock returns null for statuses, and its listener field is never assigned. The model instead states each rule for every non-disarmed arming status.
- `getSensors` and `getArmingStatus` of the service: the only test of `getSensors` (Test 17) prints and asserts nothing.
- The module descriptors of the two Java modules: wiring only.
