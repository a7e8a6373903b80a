# Microwave oven controller — Dafny model

This project models the control core of a simulated microwave oven written in Python. It
covers:

- the system control's IDLE / RUNNING / EMERGENCY state machine and the emergency handler
  that wraps its main-loop pass;
- the program controller and the defrosting program, with their worker thread;
- the component controllers: magnetron modulator with its duty-cycle ring buffer, cooling fan,
  turntable, reflector, door lock, alarm and light;
- the simulated sensors and their manager;
- keyboard input decoding and the user-interaction handlers;
- the log-level lookup.

Each source class whose methods update fields is a Dafny `class` with those fields. Its methods
carry `modifies` clauses and say what the new state is. Pure computations are functions with
lemmas about them:

- the defrosting control law;
- the fan's temperature-to-power map;
- the slew-limited moves;
- the ring buffer's rotation;
- the key table;
- the level lookup.

Shared singletons are single objects wired through `const` fields. Re-running a singleton's
initializer, as a factory reset does, is a `Reinitialize` method.

Model choices:

- **Threads.** Every background thread is a tick method: the system loop, the modulator loop,
  the light loop and the program worker. The program worker's position is a `Phase`, moved one
  step at a time by `Programs.Schedule`.
- **Randomness.** Every `random.uniform` draw is a parameter restricted to its range.
- **Floats.** They are `real`.
- **Exceptions.** They are `Outcome` values (`Return` or `Raise(fault)`).

Where the code and its documentation or tests disagree, the model follows the code; see
"Behaviour kept as written" below. There are four exceptions: bugs that stop the code from
working at all. For these the model has both an as-written member and a corrected one, and the
rest of the model runs the corrected chain. They are listed under "## Findings" and, member by
member, under "## Left out".

## Model

| member | source | states |
|---|---|---|
| Ringbuffers.PresentWindow | src/helper/Ringbuffer.py:44 | reading the slots from the write index round and dropping empty ones yields exactly the last `size` items added, oldest first |
| Ringbuffers.WindowAppend | src/helper/Ringbuffer.py:33-35 | one add drops the oldest slot of the rotated view and appends the new item |
| Ringbuffers.RotateWrite | src/helper/Ringbuffer.py:34-35 | writing the slot at the index and advancing the index modulo the capacity rotates the view by one |
| Ringbuffers.Ringbuffer.constructor | src/helper/Ringbuffer.py:18-23 | a positive size gives `size` empty slots, index 0 and nothing added |
| Ringbuffers.Ringbuffer.Create | src/helper/Ringbuffer.py:18-23 | a ValueError exactly when the size is not positive; otherwise an empty buffer of that size |
| Ringbuffers.Ringbuffer.Add | src/helper/Ringbuffer.py:25-35 | None changes nothing; an item is written at the index, the index advances modulo the size, and the item joins the history |
| Ringbuffers.Ringbuffer.Get | src/helper/Ringbuffer.py:37-44 | the result is the last `size` items added, oldest first |
| Ringbuffers.Ringbuffer.Length | src/helper/Ringbuffer.py:46-53 | the count of stored items: the number added, saturating at the capacity |
| Ringbuffers.OverwriteExample | tests/helper/TestRingbuffer.py:21-27 | a capacity-3 buffer given 1, 2, 3 and 4 holds 2, 3, 4: the oldest item is overwritten |
| Magnetrons.TruesNone | src/components/magnetron/MagnetronRingbuffer.py:53 | the count of on-samples is 0 iff no sample is on |
| Magnetrons.TruesAll | src/components/magnetron/MagnetronRingbuffer.py:53 | the count of on-samples equals the length iff every sample is on |
| Magnetrons.ShareExtremes | src/components/magnetron/MagnetronRingbuffer.py:44-53 | the power share is 1 iff the window is non-empty and all on, and 0 iff no sample is on |
| Magnetrons.ShareExamples | src/components/magnetron/MagnetronRingbuffer.py:51-53 | the shares of the capacity-3 and capacity-5 windows from the tests (2/3 and 2/5) |
| Magnetrons.DutyBoundPreserved | src/components/magnetron/MagnetronModulator.py:57-63 | recording an on-sample only when the share is within the limit keeps every window within the duty bound |
| Magnetrons.MagnetronRingbuffer.constructor | src/components/magnetron/MagnetronRingbuffer.py:10-19 | an empty window of the given capacity with `filled` 0 |
| Magnetrons.MagnetronRingbuffer.Add | src/components/magnetron/MagnetronRingbuffer.py:21-33 | the sample joins the history and `filled` rises by one until it reaches the capacity |
| Magnetrons.MagnetronRingbuffer.Get | src/components/magnetron/MagnetronRingbuffer.py:35-42 | the last `size` samples, and their number is `filled` |
| Magnetrons.MagnetronRingbuffer.PowerShare | src/components/magnetron/MagnetronRingbuffer.py:44-53 | the share of on-samples in the window, in [0, 1], and 0 when nothing is filled |
| Magnetrons.SafetyHazardAsWritten | src/components/magnetron/MagnetronModulator.py:43-55 | returns (True) only when the share exceeds the limit; otherwise it raises, because it calls the sensor objects |
| Magnetrons.SafetyHazardAsWrittenFailsFirstCycle | src/components/magnetron/MagnetronModulator.py:44-49 | the first cycle (empty window) and every cycle within the share limit raise |
| Magnetrons.MagnetronModulator.constructor | src/components/magnetron/MagnetronModulator.py:15-24 | 600 empty sample slots, target 0, not running, no thread |
| Magnetrons.MagnetronModulator.SetTargetPower | src/components/magnetron/MagnetronModulator.py:36-41 | ValueError iff the share is outside [0, 1], with the target unchanged; otherwise the target is the share |
| Magnetrons.MagnetronModulator.Cycle | src/components/magnetron/MagnetronModulator.py:57-63 | the magnetron is on iff there is no hazard and the draw is below the target; the sample is recorded; under a hazard, or with target 0, it is off; the duty bound is kept |
| Magnetrons.MagnetronModulator.Start | src/components/magnetron/MagnetronModulator.py:26-29 | running, with a loop thread |
| Magnetrons.MagnetronModulator.Stop | src/components/magnetron/MagnetronModulator.py:31-34 | not running |
| Magnetrons.MagnetronModulator.LoopTick | src/components/magnetron/MagnetronModulator.py:65-68 | a cycle while running; nothing once stopped |
| Devices.Magnetron.constructor | src/components/magnetron/Magnetron.py:22-28 | a fresh magnetron is inactive |
| Devices.Magnetron.Reinitialize | src/components/magnetron/Magnetron.py:22-28 | re-running the initializer leaves it inactive |
| Devices.Magnetron.TurnOn | src/components/magnetron/Magnetron.py:30-36 | active |
| Devices.Magnetron.TurnOff | src/components/magnetron/Magnetron.py:38-44 | inactive |
| Devices.Door.constructor | src/components/door/Door.py:26-33 | a fresh door is closed |
| Devices.Door.Reinitialize | src/components/door/Door.py:26-33 | re-running the initializer closes the door |
| Devices.Door.Open | src/components/door/Door.py:35-47 | the door ends open, whether or not it was |
| Devices.Door.Close | src/components/door/Door.py:49-61 | the door ends closed, whether or not it was |
| Devices.CoolingFan.constructor | src/components/cooling/CoolingFan.py:23-29 | power share 0 |
| Devices.CoolingFan.Reinitialize | src/components/cooling/CoolingFan.py:23-29 | power share back to 0 |
| Sensors.CavityStepFloor | src/components/sensor/SimulationSensorTemp1.py:62-63 | after an in-cavity update the reading is at least its floor minus 0.01 |
| Sensors.CavityStepHeats | src/components/sensor/SimulationSensorHumidity.py:60-61 | magnetron on, door closed, at or above the floor: the reading rises by exactly 0.1 plus the noise, so it rises |
| Sensors.CavityStepCools | src/components/sensor/SimulationSensorTemp2.py:63-67 | magnetron off, well above the floor: it falls by 0.02 (0.12 with the door open) less the noise, strictly with the door open |
| Sensors.CavityStepClamps | src/components/sensor/SimulationSensorTemp2.py:69 | without noise, a move that would end below the floor ends exactly on it |
| Sensors.MagnetronStepFloor | src/components/sensor/SimulationSensorMagnetronTemp1.py:61-62 | after an update the magnetron temperature is at least ambient minus 0.01 |
| Sensors.MagnetronStepHeatsAndCools | src/components/sensor/SimulationSensorMagnetronTemp1.py:54-59 | on with the fan off it rises by 0.3 plus the noise; on with the fan at full power, above ambient + 0.1, it falls |
| Sensors.MagnetronStepExamples | src/components/sensor/SimulationSensorMagnetronTemp2.py:55-62 | the exact values the sensor tests expect (ambient + 0.31, ambient + 0.11, ambient + 9.94, clamp to ambient) |
| Sensors.WeightRunCountsOpenings | src/components/sensor/SimulationSensorWeight.py:53-57 | over any run of updates the weight grows by 530 g per door opening plus the sum of the noise |
| Sensors.Temp1Sensor.constructor | src/components/sensor/SimulationSensorTemp1.py:29-37 | starts at the ambient temperature |
| Sensors.Temp1Sensor.Update | src/components/sensor/SimulationSensorTemp1.py:48-63 | one in-cavity step from the magnetron and door states with the drawn noise |
| Sensors.Temp1Sensor.Reset | src/components/sensor/SimulationSensorTemp1.py:65-71 | back at ambient |
| Sensors.Temp2Sensor.constructor | src/components/sensor/SimulationSensorTemp2.py:37-43 | starts at the ambient temperature |
| Sensors.Temp2Sensor.Update | src/components/sensor/SimulationSensorTemp2.py:54-70 | one in-cavity step from the magnetron and door states with the drawn noise |
| Sensors.Temp2Sensor.Reset | src/components/sensor/SimulationSensorTemp2.py:72-76 | back at ambient |
| Sensors.HumiditySensor.constructor | src/components/sensor/SimulationSensorHumidity.py:30-38 | starts at the ambient humidity |
| Sensors.HumiditySensor.Update | src/components/sensor/SimulationSensorHumidity.py:49-69 | one in-cavity step with the humidity floor |
| Sensors.HumiditySensor.Reset | src/components/sensor/SimulationSensorHumidity.py:71-77 | back at ambient humidity |
| Sensors.MagnetronTemp1Sensor.constructor | src/components/sensor/SimulationSensorMagnetronTemp1.py:30-36 | starts at the ambient temperature |
| Sensors.MagnetronTemp1Sensor.Update | src/components/sensor/SimulationSensorMagnetronTemp1.py:47-62 | one magnetron step from the magnetron state and the fan's power share |
| Sensors.MagnetronTemp1Sensor.Reset | src/components/sensor/SimulationSensorMagnetronTemp1.py:64-70 | back at ambient |
| Sensors.MagnetronTemp2Sensor.constructor | src/components/sensor/SimulationSensorMagnetronTemp2.py:33-39 | starts at the ambient temperature |
| Sensors.MagnetronTemp2Sensor.Update | src/components/sensor/SimulationSensorMagnetronTemp2.py:50-62 | one magnetron step from the magnetron state and the fan's power share |
| Sensors.MagnetronTemp2Sensor.Reset | src/components/sensor/SimulationSensorMagnetronTemp2.py:64-68 | back at ambient |
| Sensors.WeightSensor.constructor | src/components/sensor/SimulationSensorWeight.py:28-36 | the turntable weight, door last seen closed |
| Sensors.WeightSensor.Update | src/components/sensor/SimulationSensorWeight.py:47-57 | 530 g more on an opening (open now, closed before) plus the noise; the last door state becomes the current one |
| Sensors.WeightSensor.Reset | src/components/sensor/SimulationSensorWeight.py:59-65 | the initial weight, with the last door state kept |
| Sensors.WeightSensor.Reinitialize | src/components/sensor/SimulationSensorWeight.py:28-36 | the initial weight and the door last seen closed |
| Sensors.SensorManager.constructor | src/components/sensor/SensorManager.py:31-52 | six sensors on the shared magnetron, door and fan, all at their initial values |
| Sensors.SensorManager.UpdateSensors | src/components/sensor/SensorManager.py:54-62 | each of the six sensors takes exactly one step, with its own draw |
| Sensors.SensorManager.Reset | src/components/sensor/SensorManager.py:71-79 | every sensor reads its initial value again |
| Sensors.SensorManager.Reinitialize | src/components/sensor/SensorManager.py:31-52 | re-running the initializers: sensors at initial values, magnetron off, door closed, fan at 0 |
| Slew.Step | src/components/turntable/TurntableController.py:47-55 | the value moves toward the target, never past it: onto it when within one step, otherwise exactly one step closer |
| Slew.Clamp | src/components/reflector/ReflectorController.py:59-62 | the result lies in the range, equals the input inside it, and the nearer bound outside it |
| Slew.IterateReaches | src/components/turntable/TurntableController.py:47-55 | k updates reach the target iff k steps cover the distance |
| Slew.IterateReachesTarget | src/components/turntable/TurntableController.py:47-55 | the target is reached after ceil(distance / step) updates and not before |
| Slew.ClampTowardTarget | src/components/reflector/ReflectorController.py:59-62 | clamping never moves a value away from an in-range target |
| Slew.IterateClampedReaches | src/components/reflector/ReflectorController.py:50-62 | with the clamp after each move, k updates whose steps cover the distance reach an in-range target |
| Slew.IterateClampedReachesTarget | src/components/reflector/ReflectorController.py:50-62 | the same, stated with k · step |
| Turntables.UpdateStaysInRange | src/components/turntable/TurntableController.py:47-55 | with no clamp, a speed and a target in [-5, 5] keep the speed in range |
| Turntables.UpdatesReachTarget | src/components/turntable/TurntableController.py:47-55 | repeated updates reach the target exactly after ceil(|target - speed| / 0.1) of them |
| Turntables.TurntableController.constructor | src/components/turntable/TurntableController.py:29-37 | standing still with target 0 |
| Turntables.TurntableController.Update | src/components/turntable/TurntableController.py:39-55 | one slew step toward the target; the target is kept |
| Turntables.TurntableController.SetSpeed | src/components/turntable/TurntableController.py:57-74 | ValueError iff the speed is outside [-5, 5], changing nothing; otherwise the target is the speed; the current speed never changes |
| Turntables.TurntableController.Stop | src/components/turntable/TurntableController.py:76-83 | target 0, the current speed left to the slew |
| Turntables.TurntableController.EmergencyStop | src/components/turntable/TurntableController.py:85-93 | speed and target both 0 at once |
| Reflectors.UpdatedAngle | src/components/reflector/ReflectorController.py:39-62 | the result is in [-90, 90], never farther from an in-range target, and a plain slew step when both are in range |
| Reflectors.UpdatesReachTarget | src/components/reflector/ReflectorController.py:39-62 | repeated updates reach an in-range target within ceil(distance / 0.1), and stay on it |
| Reflectors.ReflectorController.constructor | src/components/reflector/ReflectorController.py:29-37 | angle 0 and target 0 |
| Reflectors.ReflectorController.Update | src/components/reflector/ReflectorController.py:39-62 | one clamped slew step toward the target; the target is kept |
| Reflectors.ReflectorController.SetAngle | src/components/reflector/ReflectorController.py:64-82 | ValueError out of range with nothing changed; the current target: nothing; a new target: assigned, then the AttributeError of `logger.info` |
| Reflectors.ReflectorController.Stop | src/components/reflector/ReflectorController.py:84-93 | the target is 0; the AttributeError of `set_angle` exactly when the old target was not 0 |
| Reflectors.ReflectorController.EmergencyStop | src/components/reflector/ReflectorController.py:95-104 | the target becomes the current angle, so later updates keep it there |
| Cooling.TempToPowerShare | src/components/cooling/CoolingFanController.py:22-31 | the share is in [0, 1], 0 up to 50 degrees and 1 from 150 degrees |
| Cooling.TempToPowerShareMonotone | src/components/cooling/CoolingFanController.py:24-31 | a hotter magnetron never asks for less cooling |
| Cooling.TempToPowerShareLipschitz | src/components/cooling/CoolingFanController.py:24-31 | the map changes by at most 0.015 per degree, so it has no jump at 50, 100 or 150 |
| Cooling.TempToPowerShareExamples | src/components/cooling/CoolingFanController.py:24-31 | the values the controller tests expect (0, 0.125, 0.25, 0.625, 0.9985, 1) |
| Cooling.CoolingFanController.constructor | src/components/cooling/CoolingFanController.py:14-17 | target 0 on the shared fan and sensors |
| Cooling.CoolingFanController.SetTargetPowerShare | src/components/cooling/CoolingFanController.py:19-20 | the target is the value, unvalidated |
| Cooling.CoolingFanController.Update | src/components/cooling/CoolingFanController.py:33-48 | the target only rises, to what the mean magnetron temperature asks for; the fan takes one clamped slew step toward it and stays in [0, 1] |
| Cooling.CoolingFanController.Start | src/components/cooling/CoolingFanController.py:50-51 | target 0.2 |
| Cooling.CoolingFanController.Stop | src/components/cooling/CoolingFanController.py:53-54 | target 0 |
| Doors.DoorController.constructor | src/components/door/DoorController.py:27-33 | unlocked, on the shared door |
| Doors.DoorController.Lock | src/components/door/DoorController.py:35-49 | locked iff it was locked or the door is closed, so it never creates a locked open door |
| Doors.DoorController.Unlock | src/components/door/DoorController.py:51-62 | unlocked, whatever the door |
| Doors.DoorController.Check | src/components/door/DoorController.py:64-76 | a custom DoorException iff locked and open; it reads and changes nothing else |
| Alarms.AlarmController.constructor | src/components/alarm/AlarmController.py:26-33 | a fresh alarm is inactive |
| Alarms.AlarmController.Reinitialize | src/components/alarm/AlarmController.py:26-33 | re-running the initializer silences it |
| Alarms.AlarmController.ActivateAlarm | src/components/alarm/AlarmController.py:35-45 | active, whether or not it was, so `IsAlarming` (is_alarming, AlarmController.py:59-66) then reports true |
| Alarms.AlarmController.DeactivateAlarm | src/components/alarm/AlarmController.py:47-57 | inactive, whether or not it was, so `IsAlarming` (is_alarming, AlarmController.py:59-66) then reports false |
| EmergencyHandling.Observe | src/emergency/EmergencyHandler.py:13-27 | a result passes unchanged; a custom fault declares an emergency and is recorded; any other fault calls `shutdown` |
| EmergencyHandling.ObserveRecordsOnlyCustomFaults | src/emergency/EmergencyHandler.py:18-25 | only custom faults reach the slot; mock and already-running faults are recorded; an AttributeError goes to `shutdown` |
| EmergencyHandling.EmergencyHandler.constructor | src/emergency/EmergencyHandler.py:9 | the class-level slot starts empty |
| EmergencyHandling.EmergencyHandler.IsBusy | src/emergency/EmergencyHandler.py:29-31 | busy iff an error is pending |
| EmergencyHandling.EmergencyHandler.Record | src/emergency/EmergencyHandler.py:21 | the slot holds the fault |
| EmergencyHandling.EmergencyHandler.HandleEmergency | src/emergency/EmergencyHandler.py:33-43 | a mock fault is cleared without a reset; any other content, none included, requests a factory reset and stays |
| Lights.NoProgramLightFollowsDoor | src/components/light/LightController.py:75-78 | with no program loaded the light follows the door alone |
| Lights.LightController.constructor | src/components/light/LightController.py:30-39 | light off, not running; the shared door and program controller are re-initialized |
| Lights.LightController.Start | src/components/light/LightController.py:41-53 | running; a second start changes nothing |
| Lights.LightController.Stop | src/components/light/LightController.py:55-67 | not running; a second stop changes nothing |
| Lights.LightController.LightCycle | src/components/light/LightController.py:69-85 | the light is on iff the door is open or a program runs neither paused nor finished |
| Lights.LightController.LoopTick | src/components/light/LightController.py:87-95 | a light cycle while running; nothing once stopped |
| Programs.ProgramComponents.constructor | src/program/Program.py:27-33 | the shared components, wired to one sensor manager, all at rest |
| Programs.InitialCycles | src/program/DefrostingProgram.py:35 | at least one cycle; one per full 100 g above the turntable weight |
| Programs.InitialCyclesExamples | src/program/DefrostingProgram.py:35 | 920 g gives 5 cycles; the bare turntable and 0 g give 1 |
| Programs.DefrostStep | src/program/DefrostingProgram.py:38-62 | above the target and armed: share 0, one cycle fewer, disarmed; disarmed: no command, re-armed only below ambient + 5; otherwise the heating share; finished iff it was or no cycle is left |
| Programs.HeatingShareRange | src/program/DefrostingProgram.py:58 | with a cycle left the share is 20 % to 40 %: 0.2, 0.3, then 0.4 from three cycles |
| Programs.DefrostCommandValid | src/program/DefrostingProgram.py:46-58 | an unfinished program never asks the modulator for a share outside [0, 1] |
| Programs.DefrostRunFinishes | src/program/DefrostingProgram.py:60-62 | over any readings cycles never come back, and finished holds iff no cycle is left |
| Programs.DefrostHysteresis | src/program/DefrostingProgram.py:46-56 | cycles drop at most once per cool-down below ambient + 5 |
| Programs.DefrostHotColdRun | src/program/DefrostingProgram.py:46-62 | each hot-then-cold pair of readings completes exactly one cycle |
| Programs.DefrostCompletes | src/program/DefrostingProgram.py:35-62 | the cycles a weight asks for finish the program after as many hot-then-cold pairs |
| Programs.DefrostStepAsWritten | src/program/DefrostingProgram.py:46-58 | as written, every step that would command the magnetron raises AttributeError |
| Programs.DefrostAsWrittenFailsFirstStep | src/program/DefrostingProgram.py:33-58 | a fresh program's first step raises |
| Programs.OuterCheck | src/program/Program.py:93 | the worker winds down exactly when it leaves the outer loop |
| Programs.PauseWait | src/program/Program.py:96-99 | the worker parks iff it is paused and still running |
| Programs.Schedule | src/program/Program.py:62-104 | a control pass iff in the control loop, unpaused and unfinished; wind-down iff a live worker exits; a dead worker does nothing |
| Programs.Notify | src/program/Program.py:124-125 | wakes a parked worker, and keeps whether it is alive |
| Programs.StoppedWorkerExitsInOneMove | src/program/Program.py:93-104 | a stopped program's worker that is not parked winds down in one move |
| Programs.ParkedWorkerStaysParked | src/program/Program.py:97-99 | a parked worker makes no move until something notifies |
| Programs.DefrostingProgram.constructor | src/program/DefrostingProgram.py:20-36 | named, idle, unpaused, unfinished, armed, with the cycles the current weight asks for |
| Programs.DefrostingProgram.ControlComponents | src/program/DefrostingProgram.py:38-62 | the state follows `DefrostStep` and the modulator gets its command; it never raises for an unfinished program |
| Programs.DefrostingProgram.ControlStep | src/program/Program.py:62-66 | a control step, then one turntable and one reflector update |
| Programs.DefrostingProgram.StopComponents | src/program/Program.py:151-162 | every component is asked to stop; the reflector's stop raises iff its target was not 0, and the door stays locked only then |
| Programs.DefrostingProgram.FinishRun | src/program/Program.py:101-104 | unpaused, not running, every component stopped |
| Programs.DefrostingProgram.Prologue | src/program/DefrostingProgram.py:64-74 | turntable target 2, running and unpaused, door locked if closed, magnetron started, fan at 0.2 |
| Programs.DefrostingProgram.Begin | src/program/Program.py:77-99 | after the prologue the worker is in the control loop, or winds down at once when finished |
| Programs.DefrostingProgram.Advance | src/program/Program.py:53-104 | one worker move, as `Schedule` decides, with its effect on state and components |
| Programs.DefrostingProgram.Pause | src/program/Program.py:106-113 | paused; nothing else changes |
| Programs.DefrostingProgram.Resume | src/program/Program.py:115-125 | unpaused, and a parked worker is woken |
| Programs.DefrostingProgram.StopAsWritten | src/program/Program.py:127-135 | paused and not running, but a parked worker stays parked |
| Programs.DefrostingProgram.Stop | src/program/Program.py:127-135 | paused and not running, with a parked worker woken |
| Programs.DefrostingProgram.EmergencyStop | src/program/Program.py:137-149 | `stop` as written sets the flags (paused, not running) and notifies nobody, so the worker's phase is unchanged and a parked worker stays parked; then the AttributeError of the modulator's missing `emergency_stop` |
| ProgramControl.ProgramController.constructor | src/program/ProgramController.py:28-34 | no program |
| ProgramControl.ProgramController.Reinitialize | src/program/ProgramController.py:28-34 | the program slot is emptied |
| ProgramControl.ProgramController.Start | src/program/ProgramController.py:36-46 | the program becomes the current one, and its worker runs to the head of the outer loop |
| ProgramControl.ProgramController.StepWorker | src/program/ProgramController.py:45-46 | the current program's worker makes one move |
| ProgramControl.ProgramController.Pause | src/program/ProgramController.py:48-55 | pauses the program; AttributeError iff there is none |
| ProgramControl.ProgramController.Resume | src/program/ProgramController.py:57-64 | resumes the program; AttributeError iff there is none |
| ProgramControl.ProgramController.Stop | src/program/ProgramController.py:66-80 | no program: nothing; otherwise stopped with the corrected, notifying stop, and the join returns with the worker ended; a worker that was alive wound down (components stopped, unpaused), one already ended leaves the program paused |
| ProgramControl.ProgramController.EmergencyStop | src/program/ProgramController.py:82-92 | AttributeError on its name with no program, else the program's emergency-stop AttributeError, with the worker's phase unchanged |
| ProgramControl.ProgramController.GetStateTuple | src/program/ProgramController.py:94-144 | with no program ("No program running", false, true, false); otherwise the program's name, running, finished and paused, as `GetRunningProgram`, `IsRunning`, `IsFinished` and `IsPaused` (ProgramController.py:94-136) report them |
| ProgramControl.ProgramController.RunningMeansWorkerAlive | src/program/ProgramController.py:94-103 | the controller reports a running program only while its worker is alive |
| ProgramControl.MockProgramController.constructor | src/program/MockProgramController.py:5-6 | inactive |
| ProgramControl.MockProgramController.Start | src/program/MockProgramController.py:8-9 | active |
| ProgramControl.MockProgramController.Stop | src/program/MockProgramController.py:17-18 | inactive |
| ProgramControl.MockProgramController.Update | src/program/MockProgramController.py:11-12 | AssertionError iff inactive |
| ProgramControl.MockProgramController.MockError | src/program/MockProgramController.py:14-15 | always the custom mock fault |
| System.SystemControl.constructor | src/SystemControl.py:28-36 | idle, empty error slot, silent alarm, fresh mock handler, no program, sensors at initial values |
| System.SystemControl.Start | src/SystemControl.py:64-72 | IDLE becomes RUNNING; any other state is kept |
| System.SystemControl.DeclareEmergency | src/SystemControl.py:43-52 | EMERGENCY, with the alarm on when it was entered now; no change when already there |
| System.SystemControl.Stop | src/SystemControl.py:54-62 | idle; from another state the sensors are reset and the program is stopped, through the corrected, notifying stop, with its worker ended |
| System.SystemControl.FactoryReset | src/SystemControl.py:38-41 | idle, alarm off, new mock handler, no program, sensors and devices re-initialized, error slot kept |
| System.SystemControl.Dispatch | src/SystemControl.py:102-126 | START starts a program unless one runs (then ProgramAlreadyRunning); STOP, PAUSE, RESUME act only under their guards; the rest changes nothing |
| System.SystemControl.HandleInteractions | src/SystemControl.py:100-126 | the mock's one START starts a fresh program or raises ProgramAlreadyRunning; later passes dispatch nothing |
| System.SystemControl.LoopAction | src/SystemControl.py:99-129 | interactions, then, unless they raised, one step of every sensor; on a raise the sensors are unchanged |
| System.SystemControl.LoopActionAsWritten | src/SystemControl.py:99-128 | as written, every pass raises: ProgramAlreadyRunning or the AttributeError of `get_state_tupel` |
| System.SystemControl.React | src/emergency/EmergencyHandler.py:14-25 | the `observe` wrapper applied: pass; declare an emergency and record; or crash on the missing `shutdown` |
| System.SystemControl.Tick | src/SystemControl.py:74-96 | IDLE ends the loop; RUNNING stays or enters EMERGENCY with ProgramAlreadyRunning recorded; EMERGENCY clears a mock fault, resets on any other, returns to RUNNING when none is pending |
| System.SystemControl.RunningTickAsWritten | src/SystemControl.py:83-86 | as written, a RUNNING pass crashes the loop thread unless the first START meets a running program |
| System.SystemControl.EmergencyStopProgram | src/SystemControl.py:131-133 | the program controller's AttributeError reaches the caller, and the worker's phase is unchanged |
| System.MisspelledQueryIsNotCustom | src/SystemControl.py:128 | the misspelled query's AttributeError is not custom, so `observe` calls `shutdown`; ProgramAlreadyRunning is recorded |
| UserInput.Decode | src/user/InputDetector.py:70-84 | a key decodes to an action only if it is that action's key, and every action key decodes |
| UserInput.DecodeKeyFor | src/user/InputDetector.py:70-84 | decoding and the key table are inverse: a key decodes to an action iff it is that action's key |
| UserInput.KeyForInjective | src/user/InputDetector.py:70-84 | no two actions share a key |
| UserInput.InputDetector.constructor | src/user/InputDetector.py:14-21 | not delegating, no key stored |
| UserInput.InputDetector.Start | src/user/InputDetector.py:23-34 | delegating; a second start changes nothing |
| UserInput.InputDetector.Stop | src/user/InputDetector.py:36-47 | not delegating; a second stop changes nothing |
| UserInput.InputDetector.HandleKeyEvent | src/user/InputDetector.py:49-57 | only the most recent key is kept |
| UserInput.InputDetector.GetLatestAction | src/user/InputDetector.py:59-91 | nothing while not delegating or with no key, and the key is kept; otherwise the decoded key, and the key is consumed |
| UserInteraction.UserInteractionHandler.constructor | src/user/UserInteractionHandler.py:28-35 | the input detector started, and the shared door re-initialized (closed) |
| UserInteraction.UserInteractionHandler.GetInteractions | src/user/UserInteractionHandler.py:37-65 | START with a fresh defrosting program; OPEN_DOOR and CLOSE_DOOR set the door and return nothing; the rest pass through with no program |
| UserInteraction.MockUserInteractionHandler.constructor | src/user/MockUserInteractionHandler.py:7 | `run_once` false |
| UserInteraction.MockUserInteractionHandler.Reinitialize | src/SystemControl.py:34 | a new mock handler: `run_once` false |
| UserInteraction.MockUserInteractionHandler.GetInteractions | src/user/MockUserInteractionHandler.py:9-14 | the first call gives START with a fresh program, every later one nothing; `run_once` stays set |
| LogLevels.ByValue | src/helper/logging/LogLevel.py:5-10 | a member iff the number is one of the five values, and it is the member with that value |
| LogLevels.ByName | src/helper/logging/LogLevel.py:16 | a member iff the name is exactly a member's name, and it is that member |
| LogLevels.Lookup | src/helper/logging/LogLevel.py:5-19 | an integer finds the member with that value; a string finds the member named by its upper case; anything else, None included, is a ValueError |
| LogLevels.LevelsOrdered | src/helper/logging/LogLevel.py:6-10 | DEBUG < INFO < WARNING < ERROR < CRITICAL; values and names are injective |
| LogLevels.LookupRoundTrip | src/helper/logging/LogLevel.py:5-16 | looking a member up by its value, or by its name, gives back the member |
| LogLevels.UpperIgnoresCase | src/helper/logging/LogLevel.py:16 | upper-casing any mix of cases of a capital name gives that name |
| LogLevels.CaseInsensitiveLookup | src/helper/logging/LogLevel.py:13-16 | any spelling of a member's name in any mix of cases finds that member |
| LogLevels.LowerCaseLookup | src/helper/logging/LogLevel.py:13-16 | the all-lower-case name finds the member |
| LogLevels.UnknownNamesRejected | src/helper/logging/LogLevel.py:17-19 | "NOT_A_LEVEL" and the empty string raise ValueError |
| LogLevels.NonLevelsRejected | src/helper/logging/LogLevel.py:19 | None, and any number that is not a level, raise ValueError |

## Left out

- Threads, sleeps, joins and the condition variable: each loop body is a tick method, and a join is the ticks that end the loop. Interleavings, and the time the sleeps take, are not modelled.
- Programs that lose their slot are not scheduled any further. This happens when a new START replaces the program, or when a factory reset empties the slot. Their threads would still run in Python.
- The class-level pause condition is shared by all programs. The model gives each program its own notify.
- The prologue of `DefrostingProgram.start` runs synchronously inside `ProgramController.Start`. In Python it runs on the new thread.
- A factory reset does not stop a running program's worker. The model does not stop it either, and it does not track the worker any further.
- `random.uniform` draws are parameters with their ranges; no generator is modelled.
- Floating-point rounding is not modelled: all quantities are `real`.
- Logging (src/helper/Logger.py and src/helper/logging/LoggerFacade.py) is left out: every `logger.log` call is dropped. Two calls are kept as faults:
  - the failing `logger.info` in `ReflectorController.set_angle`;
  - the name lookups in the program controller's log messages.
- The `pynput` listener: keys are a small `Key` datatype.
- Singleton `__new__` plumbing: each shared instance is one object, passed to the objects that share it.
- The constructors that run as `Program` class attributes at import time act on objects still at their initial values. The model builds those components once, in `Programs.ProgramComponents.constructor`.
- The pure data holders (Alarm, Light, Turntable, Reflector) are folded into their controllers as fields.
- `Action.__eq__` against strings is Python-specific: actions are a datatype.
- src/main.py is not part of this model.
- The abstract `SimulationSensor` base is not modelled: each sensor is its own class.
- The sensor getters are reads-only functions with no contract of their own. The model has no failing `get`, so a failure passing through a getter is not modelled.
- `update_display` of both interaction handlers does nothing and has no contract.
- `CoolingFanController.update` has no caller in the source. It is modelled, but nothing schedules it.
- The `LightController` is not wired into the system control, as in the source.
- `MAGNETRON_ON_OFF_INTERVAL_IN_MS` is imported by src/components/magnetron/MagnetronModulator.py:9 but is missing from src/helper/config.py. As written, that import raises ImportError. Every module that imports the modulator therefore fails to load: Program, DefrostingProgram, ProgramController, SystemControl and everything above them. The whole model assumes the import succeeds with 100 ms, so the modulator keeps 600 samples (60 * 1000 // 100).
- ProgramControl.ProgramController.Stop, System.SystemControl.Stop and the STOP case of System.SystemControl.Dispatch use the corrected, notifying stop (Programs.DefrostingProgram.Stop). As written, the join at src/program/ProgramController.py:79-80 never returns on a parked worker, as Programs.ParkedWorkerStaysParked shows. The model does not promise that hang.
- System.SystemControl.Tick runs the corrected System.SystemControl.LoopAction, which spells `get_state_tuple` correctly. As written, the RUNNING pass crashes the loop, as System.SystemControl.RunningTickAsWritten shows.
- Programs.DefrostingProgram.ControlStep: uses the corrected Programs.DefrostingProgram.ControlComponents, which calls `set_target_power`, so an unfinished program's pass never raises. As written, the first pass raises AttributeError at src/program/DefrostingProgram.py:49 or 58, as Programs.DefrostAsWrittenFailsFirstStep shows.
- Programs.DefrostingProgram.Advance: its control pass is the corrected one. As written, the AttributeError escapes `start` (src/program/Program.py:63). The worker thread then dies with `running` still true, the door locked and no component stopped.
- ProgramControl.ProgramController.StepWorker: moves the worker through Programs.DefrostingProgram.Advance, so it carries the same correction.
- ProgramControl.ProgramController.RunningMeansWorkerAlive: holds for the corrected control law only. As written, the worker dies on its first pass while `running` stays true. `Valid`'s clause that a running program's worker is alive rests on the same correction.
- Magnetrons.MagnetronModulator.LoopTick: runs the corrected Magnetrons.MagnetronModulator.Cycle, which reads the two magnetron temperatures. As written, the first cycle raises TypeError at src/components/magnetron/MagnetronModulator.py:48-49 and the modulator thread dies, as Magnetrons.SafetyHazardAsWrittenFailsFirstCycle shows.
- Time: `magnetron_loop` passes `MAGNETRON_ON_OFF_INTERVAL_IN_MS` to `time.sleep`, which takes seconds (src/components/magnetron/MagnetronModulator.py:68). With 100 it would sleep 100 s per cycle. The 600-sample window would then span 60,000 s, about 16.7 hours, not the minute that the per-minute share limit (src/helper/config.py:23) names. Sleeps are not modelled: the window and the duty bound are counted in samples.
- `str.upper` is modelled only for the characters whose upper case can complete a level name: the ASCII letters and the dotless i. Other characters are kept as they are, which decides the same lookups.
- Magnetrons.MagnetronModulator.SetTargetPower: states only the target. The duty-bound invariant of the window is kept by `Cycle` and does not depend on it.

## Behaviour kept as written

The code, not the tests, decides these points:

- `DoorController.unlock` unlocks an open door. tests/components/door/TestDoorController.py:52-58 expects a warning instead.
- `observe` does not re-raise a non-custom fault; it calls `shutdown`. tests/emergency/TestEmergencyHandler.py:66-84 expects the fault re-raised.
- `handle_emergency` neither deactivates the alarm nor treats a DoorException specially. tests/emergency/TestEmergencyHandler.py:86-151 expects both.
- `SystemControl.stop` has no light controller to stop. tests/TestSystemControl.py:47-57 expects one.
- `Action` has seven members. tests/helper/TestAction.py:28-31 expects four.
- `ReflectorController.set_angle` raises AttributeError after assigning a new target. tests/components/reflector/TestReflectorController.py:22-25 expects a plain assignment.
- `DefrostingProgram` is not a singleton. tests/program/TestDefrostingProgram.py:27-31 expects two constructions to be equal.
- `Program.stop` sets `paused` to true, although its docstring says false.
- `Program.emergency_stop` calls `stop` as written, which does not notify, so a parked worker stays parked. It then raises at the modulator, which has no `emergency_stop`, so no component is stopped and the door stays locked.

## Findings

| source | as written | input that shows it | evidently intended | confidence | as-written member | corrected member |
|---|---|---|---|---|---|---|
| src/components/magnetron/MagnetronModulator.py:48-49 | `safety_hazard` calls the two magnetron sensor objects, which are not callable | any cycle whose power share is within the limit, including the very first (empty window) | read the two temperatures through `magnetron_temp1()` and `magnetron_temp2()` | not executed | Magnetrons.SafetyHazardAsWrittenFailsFirstCycle | Magnetrons.MagnetronModulator.Cycle |
| src/program/DefrostingProgram.py:49,58 | `control_components` calls `set_target_power_share`, which the modulator does not have | a fresh program (`just_updated` false) at any temperature | call the modulator's `set_target_power` | not executed | Programs.DefrostAsWrittenFailsFirstStep | Programs.DefrostingProgram.ControlComponents |
| src/SystemControl.py:128 | `loop_action` calls `get_state_tupel`; the non-custom AttributeError makes `observe` call the missing `shutdown`, so the loop thread dies before any sensor update | the second RUNNING pass of the loop, or the first when no program runs | call `get_state_tuple` | not executed | System.SystemControl.RunningTickAsWritten | System.SystemControl.LoopAction |
| src/program/Program.py:127-135 | `stop` clears `running` but does not notify the pause condition, so a worker parked in `wait_for` never re-checks its predicate, and `ProgramController.stop`'s join (src/program/ProgramController.py:79-80) waits for ever | pause a running program, let the worker park, then stop it | notify the pause condition, as `resume` does | not executed | Programs.ParkedWorkerStaysParked | Programs.DefrostingProgram.Stop |
