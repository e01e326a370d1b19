# Warehouse management core, modelled and verified in Dafny

This project models the control logic of a classroom warehouse simulator, written in C#. It covers these parts:

- **Transport interlock** (`transport.dfy`, module `Transport`). The `WarehouseTransportSystem` facade sits over a `ConveyorController` and a `MotorController`:
  - the motor gate refuses a start under E-Stop or fault, and does not start a running motor twice;
  - the conveyor's jam latch is set by a poll that sees a jam, and is dropped only once the sensor reads clear;
  - the facade adds an availability check, a movement request and a hold for the sorting side.

  Every class method is proved to perform one step of a value-level model (`Line`, `Step`, `Run`). Lemmas over arbitrary call sequences prove the safety facts.
- **Hysteresis fan** (`fan.dfy`, module `Fan`): `FanController` and its constructor check.
- **Energy report** (`energy.dfy`, module `Energy`): `ComputeFromSamples` is a loop over the samples, proved against the specification `Report`. `CalculateEnergyScore` is also modelled. The lemmas show what the ON streaks are, and prove the report's bounds and the unit-test example.
- **Alarm store** (`alarms.dfy`, module `AlarmService`): the `Alarms` class over the shared file alarm.txt, and the static `Alarm` forwarder. The file is modelled as an existence flag plus its lines.
- **Emergency stop** (`estop.dfy`, module `EmergencyStop`): `EmergencyStop.Estop` checks its message, then raises one alarm and archives one log entry.
- **Sorting controller** (`sorting.dfy`, module `Sorting`): `RoutePackage` maps a zone to its gate and retries at most `MaxRetries` times. Each zone has a retry counter, which is reset on every exit. The random gate outcome is an oracle. The part of `RoutePackage` past its argument check is the method `SendAndRetry`, which calls `RoutePackage` again on a failure, as the source's recursive call does.
- **Barcode-to-zone routing model** (`routing_model.dfy`, module `Models`): `GetTargetZone` upper-cases the barcode, looks it up in a table and logs the access. `HasLogEntry` and `GetTimestamp` are modelled too.
- **Lane routing by weight** (`routing.dfy`, module `Warehouse`): `RoutingEngine`, its identical copies `OptimizedRoutingEngine` and `SimpleRoutingEngine`, and `RoutingEngineAdapter`. The lemmas prove that all of them agree.
- **Performance helpers** (`performance.dfy`, module `Performance`): `RoutingPerformance.Repeat` and the call order of `Measure`.
- **Mock barcode reader** (`barcode_reader.dfy`, module `BarcodeReading`): the cyclic reader over a fixed array.

`dotnet.dfy` (module `DotNet`) holds the .NET behaviour this code relies on:
- null as `Option`;
- the argument exceptions, with `Result` for a call that throws;
- `String.IsNullOrEmpty` and `String.IsNullOrWhiteSpace`, with .NET's white-space set;
- ordinal `Contains`;
- `ToUpperInvariant`.

How the source is represented:
- Doubles are modelled as exact reals.
- `DateTime.Now` is an opaque timestamp string that the caller hands in.
- Random outcomes are oracle parameters.
- The console is left out.

Where the source's own comments and its code differ, the model follows the code:
- `GetSystemStatus` starts the motor. WareHouseTransportSystem.cs:51 says the probe runs "without starting it", but line 52 calls `_motor.Start()`. See Findings.
- The facade reads `_motor.IsRunning`. `MotorController` (MotorController.cs:22-53) declares no `IsRunning` property, so the model reads the driver's run flag, which is the only run flag there is.

`MotorController` and `ConveyorController` live in the directory `WareHouse_Management/Conveyor and Motor/`. Their rows in the table cite the system integration tests in `Warehouse_Management_Test/IntegrationTests.cs` that exercise each behaviour. The code they model is:
- `MotorController.Start` at lines 36-49 of `MotorController.cs`, and `MotorController.Stop` at line 52;
- the `MotorController` constructor at lines 28-32 of `MotorController.cs`;
- the `ConveyorController` constructor at lines 20-25 of `ConveyorController.cs`, which clears the jam latch;
- `ConveyorController.Start` at lines 28-37 of `ConveyorController.cs`, `Stop` at lines 40-43, `CheckJam` at lines 46-53, and `ClearJam` at lines 56-64.

The motor driver is the test fake. Its `StartForward` sets the run flag and counts the call, and its `Stop` clears the flag. The fake in `Conveyor and Motor Unit Tests.cs` (lines 292-299) counts a `StartForward` only when it is stopped. The model counts every call. The difference cannot be observed, because `MotorController.Start` calls `StartForward` only on a stopped driver (MotorController.cs:43-47).

## Model

| member | source | states |
|---|---|---|
| Transport.StartMotor | Warehouse_Management_Test/IntegrationTests.cs:355-399 | a start succeeds exactly when neither E-Stop nor fault is set; it actuates a forward start only from stopped, so a running motor is not started twice |
| Transport.StopMotor | Warehouse_Management_Test/IntegrationTests.cs:366-375 | stop always leaves the motor stopped and never actuates a start |
| Transport.StartConveyor | Warehouse_Management_Test/IntegrationTests.cs:444-455 | the conveyor starts exactly when no jam is latched and the motor is safe to start; the latch is untouched |
| Transport.JamCheck | Warehouse_Management_Test/IntegrationTests.cs:416-442 | a detected jam sets the latch and stops the motor without an actuation; with no jam nothing changes |
| Transport.JamClear | Warehouse_Management_Test/IntegrationTests.cs:457-470 | the latch stays set while the sensor still reads a jam and drops once it reads clear; the motor is untouched |
| Transport.MovementRequest | WareHouse_Management/SystemIntegration/WareHouseTransportSystem.cs:61-69 | an unavailable line (jammed or already running) is refused and unchanged; otherwise the request is a system start; it succeeds exactly when available and safe |
| Transport.Status | WareHouse_Management/SystemIntegration/WareHouseTransportSystem.cs:45-55 | checks jam, then running, then calls the motor's Start; the IDLE answer is given only after that call started the motor (one actuation) |
| Transport.StatusProbe | WareHouse_Management/SystemIntegration/WareHouseTransportSystem.cs:45-55 | the corrected query: one of the four answers, IDLE exactly when the line is available and safe, with no state change |
| Transport.StepKeepsLatchHoldsMotor | WareHouse_Management/SystemIntegration/WareHouseTransportSystem.cs:20-74 | no facade call makes the motor run while a jam is latched |
| Transport.RunKeepsLatchHoldsMotor | WareHouse_Management/SystemIntegration/WareHouseTransportSystem.cs:20-74 | no sequence of facade calls, under any inputs, makes the motor run while a jam is latched |
| Transport.LatchIsSticky | Warehouse_Management_Test/IntegrationTests.cs:444-470 | without ClearSystemFault a latched jam stays latched and the motor stays stopped with no actuation, whatever the sensor and safety inputs do |
| Transport.LatchTransitions | Warehouse_Management_Test/IntegrationTests.cs:416-470 | the latch is set only by a poll that sees a jam and dropped only by a clear with the sensor reading clear |
| Transport.StartsOnlyWhenSafe | Warehouse_Management_Test/IntegrationTests.cs:377-414 | the motor goes from stopped to running only while safe and unjammed, only through a start, a movement request or the status query, and each such change is exactly one actuation |
| Transport.StartsBoundedByCalls | Warehouse_Management_Test/IntegrationTests.cs:355-375 | over any call sequence, actuations never decrease and grow by at most one per call |
| Transport.StartTwiceActuatesOnce | Warehouse_Management_Test/IntegrationTests.cs:355-364 | starting twice while safe actuates exactly once and leaves the motor running |
| Transport.ProbeMatchesStatus | WareHouse_Management/SystemIntegration/WareHouseTransportSystem.cs:50-54 | the corrected query gives the as-written answer; the as-written query changes state exactly when it answers IDLE |
| Transport.StatusActuatesIdleMotor | WareHouse_Management/SystemIntegration/WareHouseTransportSystem.cs:50-54 | on an idle, safe, unjammed line the status query answers IDLE and has started the motor |
| Transport.MotorDriver.StartForward | Warehouse_Management_Test/IntegrationTests.cs:355-364 | the test driver runs and counts one more forward start |
| Transport.MotorDriver.Stop | Warehouse_Management_Test/IntegrationTests.cs:341-352 | the test driver stops; the start count is unchanged |
| Transport.MotorController.constructor | Warehouse_Management_Test/IntegrationTests.cs:336 | keeps the driver and the safety inputs it is given |
| Transport.MotorController.Start | Warehouse_Management_Test/IntegrationTests.cs:377-399 | performs StartMotor on the driver and the live safety inputs |
| Transport.MotorController.Stop | Warehouse_Management_Test/IntegrationTests.cs:341-352 | performs StopMotor on the driver |
| Transport.ConveyorController.constructor | Warehouse_Management_Test/IntegrationTests.cs:337 | keeps the motor controller and jam sensor it is given; no jam is latched |
| Transport.ConveyorController.Start | Warehouse_Management_Test/IntegrationTests.cs:444-455 | performs StartConveyor on the live state and inputs |
| Transport.ConveyorController.Stop | Warehouse_Management_Test/IntegrationTests.cs:341-352 | stops the motor and leaves the latch |
| Transport.ConveyorController.CheckJam | Warehouse_Management_Test/IntegrationTests.cs:416-442 | performs JamCheck on the live state and sensor |
| Transport.ConveyorController.ClearJam | Warehouse_Management_Test/IntegrationTests.cs:457-470 | performs JamClear on the live state and sensor |
| Transport.NewLine | Warehouse_Management_Test/IntegrationTests.cs:329-339 | the wiring of the integration tests: fresh fake driver, safety inputs and jam sensor, one motor controller shared by the conveyor and the facade; the line starts stopped, unjammed, safe, with no actuation, and the facade's invariant holds |
| Transport.WarehouseTransportSystem.constructor | WareHouse_Management/SystemIntegration/WareHouseTransportSystem.cs:12-16 | keeps the motor and conveyor it is given; the line starts out safe (no running motor under a latched jam) |
| Transport.WarehouseTransportSystem.StartSystem | WareHouse_Management/SystemIntegration/WareHouseTransportSystem.cs:20-23 | performs StartConveyor and keeps the no-run-under-jam invariant |
| Transport.WarehouseTransportSystem.StopSystem | WareHouse_Management/SystemIntegration/WareHouseTransportSystem.cs:25-28 | always leaves the motor stopped, latch untouched, invariant kept |
| Transport.WarehouseTransportSystem.PollSystemForIssues | WareHouse_Management/SystemIntegration/WareHouseTransportSystem.cs:30-33 | performs JamCheck: a jam latches and stops the motor, no jam changes nothing (not even the actuation count) |
| Transport.WarehouseTransportSystem.ClearSystemFault | WareHouse_Management/SystemIntegration/WareHouseTransportSystem.cs:35-38 | performs JamClear, invariant kept |
| Transport.WarehouseTransportSystem.IsRunning | WareHouse_Management/SystemIntegration/WareHouseTransportSystem.cs:41 | the motor's run flag |
| Transport.WarehouseTransportSystem.IsJamActive | WareHouse_Management/SystemIntegration/WareHouseTransportSystem.cs:43 | the conveyor's jam latch |
| Transport.WarehouseTransportSystem.IsAvailableForTransport | WareHouse_Management/SystemIntegration/WareHouseTransportSystem.cs:77-84 | true exactly when the line is neither jammed nor running |
| Transport.WarehouseTransportSystem.GetSystemStatus | WareHouse_Management/SystemIntegration/WareHouseTransportSystem.cs:45-55 | answers and changes the line exactly as Status (as written: may start the motor) |
| Transport.WarehouseTransportSystem.GetSystemStatusReadOnly | WareHouse_Management/SystemIntegration/WareHouseTransportSystem.cs:45-55 | the corrected query: the as-written answer, read without any change |
| Transport.WarehouseTransportSystem.RequestMovement | WareHouse_Management/SystemIntegration/WareHouseTransportSystem.cs:61-69 | performs MovementRequest, invariant kept |
| Transport.WarehouseTransportSystem.HoldMovement | WareHouse_Management/SystemIntegration/WareHouseTransportSystem.cs:71-74 | stops the motor like StopSystem, invariant kept |
| Fan.NextIsOn | WareHouse_Management/Environment/FanController.cs:41-51 | from off, on exactly when the reading is strictly above the on-threshold; from on, stays on exactly when the reading is at least the off-threshold |
| Fan.Trace | WareHouse_Management/Environment/FanController.cs:37-52 | one fan state per reading of a sequence |
| Fan.BandKeepsState | WareHouse_Management/Environment/FanController.cs:51 | readings inside the band [off, on] never change the fan state |
| Fan.TraceSwitchesOnlyAcrossThresholds | WareHouse_Management/Environment/FanController.cs:37-52 | every switch is caused by crossing a threshold; an on fan's reading is at least the off-threshold and an off fan's at most the on-threshold |
| Fan.RisingAndFalling | Warehouse_Management_Test/FanControllerTests.cs:45-63 | 24, 29, 31, 28, 24 with thresholds 30/25 gives off, off, on, on, off |
| Fan.FanController.constructor | WareHouse_Management/Environment/FanController.cs:19-31 | keeps the thresholds; a new fan is off |
| Fan.FanController.UpdateTemperature | WareHouse_Management/Environment/FanController.cs:37-52 | records the reading, applies NextIsOn, keeps the thresholds and the hysteresis invariant |
| Fan.NewFanController | WareHouse_Management/Environment/FanController.cs:22-26 | thresholds without a band (off >= on) are refused; otherwise a new, off controller with those thresholds |
| Energy.FanFlags | WareHouse_Management/Environment/EnergyReporter.cs:32-34 | the fan flag of each sample, in order |
| Energy.OnCountBounded | WareHouse_Management/Environment/EnergyReporter.cs:28-36 | the ON count is at most the sample count and is zero exactly when no sample is ON |
| Energy.ScanFacts | WareHouse_Management/Environment/EnergyReporter.cs:29-48 | the loop state: closed streaks positive, closed plus open equal the ON count, open streak non-zero exactly when the last sample is ON, one streak per run start |
| Energy.StreaksAreMaximalRuns | WareHouse_Management/Environment/EnergyReporter.cs:29-52 | the streaks the loop collects are exactly MaximalRuns, the lengths of the maximal ON runs in order; so each is positive, there is one per run start, and they sum to the ON count |
| Energy.ScanIsRuns | WareHouse_Management/Environment/EnergyReporter.cs:32-48 | after any prefix, the open streak is the trailing ON block and the closed streaks are the maximal runs before it |
| Energy.RunsExample | WareHouse_Management/Environment/EnergyReporter.cs:29-52 | ON, ON, OFF, ON has the runs 2 then 1 |
| Energy.Report | WareHouse_Management/Environment/EnergyReporter.cs:24-76 | the reference report that ComputeFromSamples is proved equal to: it carries the given timestamp, and its score is CalculateEnergyScore of its own average temperature and percentage, so it lies in [0, 100] |
| Energy.NoStreaksIffNeverOn | WareHouse_Management/Environment/EnergyReporter.cs:50-52 | there is no streak exactly when no sample is ON |
| Energy.CalculateEnergyScore | WareHouse_Management/Environment/EnergyReporter.cs:108-123 | 100 - (avgTemp - 22) - fanPercent / 2, clamped into [0, 100] |
| Energy.PercentInRange | WareHouse_Management/Environment/EnergyReporter.cs:62 | the fan-on percentage lies in [0, 100] |
| Energy.ReportFields | WareHouse_Management/Environment/EnergyReporter.cs:55-62 | total on-time = ON count x interval; percentage = ON count / count x 100; average runtime from the streaks |
| Energy.ReportPercentBounded | WareHouse_Management/Environment/EnergyReporter.cs:62 | the report's fan-on percentage lies in [0, 100] |
| Energy.ReportOnTimeBounded | WareHouse_Management/Environment/EnergyReporter.cs:55 | the report's on-time lies between 0 and the sampled time (sample count x interval) |
| Energy.ReportRuntime | WareHouse_Management/Environment/EnergyReporter.cs:58-59 | average runtime is 0 exactly when the fan was never on, and average runtime x streak count = total on-time |
| Energy.RuntimeZeroIffNeverOn | WareHouse_Management/Environment/EnergyReporter.cs:58-59 | average runtime is 0 exactly when no sample is ON |
| Energy.RuntimeTimesStreaksIsOnTime | WareHouse_Management/Environment/EnergyReporter.cs:55-59 | average runtime x number of streaks = ON count x interval |
| Energy.WorkedExample | Warehouse_Management_Test/EnergyReporterTests.cs:12-39 | 25/26/27/28 with fan off/on/on/off at 1 s gives 26.5, 2 s, 2 s, 50 %, 70.5 |
| Energy.ComputeFromSamples | WareHouse_Management/Environment/EnergyReporter.cs:11-77 | null, empty and non-positive interval throw ArgumentNull, Argument and ArgumentOutOfRange in that order; otherwise the loop's result is exactly Report |
| AlarmService.AlarmLine | WareHouse_Management/AlarmsService.cs:35 | a raised line ends with the message, contains it, and is never blank |
| AlarmService.MessageText | WareHouse_Management/AlarmsService.cs:22 | null is written as "" |
| AlarmService.Visible | WareHouse_Management/AlarmsService.cs:42-45 | a missing file has no lines |
| AlarmService.Without | WareHouse_Management/AlarmsService.cs:89 | the filter never adds lines |
| AlarmService.WithoutMembership | WareHouse_Management/AlarmsService.cs:89 | a line survives exactly when it was there and does not contain the match |
| AlarmService.WithoutAppend | WareHouse_Management/AlarmsService.cs:89 | the filter works piece by piece, so kept lines stay in their original order |
| AlarmService.WithoutUnchangedIffNoMatch | WareHouse_Management/AlarmsService.cs:89-93 | the filter is the identity exactly when no line contains the match, which is exactly when the count is unchanged |
| AlarmService.WithoutIdempotent | WareHouse_Management/AlarmsService.cs:88-96 | a second Clear with the same match changes nothing |
| AlarmService.ClearRemovesMatchingLines | Warehouse_Management_Test/AlarmTests.cs:83-97 | clearing "RemoveThis" from the three test alarms leaves exactly the KeepThis and KeepThisToo lines, in that order, and none of them contains the pattern (for timestamps that do not contain it) |
| AlarmService.RaisedAlarmIsVisible | Warehouse_Management_Test/AlarmTests.cs:172-179 | after a Raise, AnyAlarms is false |
| AlarmService.ClearingEveryLineLeavesNoAlarm | Warehouse_Management_Test/AlarmTests.cs:182-193 | clearing a match every line contains leaves no line and AnyAlarms true |
| AlarmService.AlarmFile.constructor | WareHouse_Management/AlarmsService.cs:15 | a file state, present or missing, with its lines |
| AlarmService.Alarms.constructor | WareHouse_Management/AlarmsService.cs:13-16 | every instance uses the one shared file |
| AlarmService.Alarms.Raise | WareHouse_Management/AlarmsService.cs:19-37 | the file exists afterwards and holds its earlier lines plus exactly one new line for the message (null as "") |
| AlarmService.Alarms.ReadAll | WareHouse_Management/AlarmsService.cs:40-46 | no lines for a missing file, otherwise the file's lines |
| AlarmService.Alarms.AnyAlarms | WareHouse_Management/AlarmsService.cs:49-62 | true exactly when the file is missing or every line is white space |
| AlarmService.Alarms.Clear | WareHouse_Management/AlarmsService.cs:80-97 | a null or empty match or a missing file changes nothing; otherwise exactly the lines not containing the match remain |
| AlarmService.Alarms.ClearAlarms | WareHouse_Management/AlarmsService.cs:98-102 | the file exists with no lines |
| AlarmService.Alarm.constructor | WareHouse_Management/AlarmsService.cs:119 | the default instance over the shared file |
| AlarmService.Alarm.Raise | WareHouse_Management/AlarmsService.cs:120 | forwards to the default instance: same effect as Alarms.Raise |
| AlarmService.Alarm.Clear | WareHouse_Management/AlarmsService.cs:121 | same effect as Alarms.Clear |
| AlarmService.Alarm.ReadAll | WareHouse_Management/AlarmsService.cs:122 | same answer as Alarms.ReadAll |
| AlarmService.Alarm.AnyAlarms | WareHouse_Management/AlarmsService.cs:124 | same answer as Alarms.AnyAlarms |
| AlarmService.Alarm.ClearAlarms | WareHouse_Management/AlarmsService.cs:125 | same effect as Alarms.ClearAlarms |
| EmergencyStop.LogEntry | WareHouse_Management/EStop.cs:15 | an archived entry contains its message |
| EmergencyStop.Log.Archive | WareHouse_Management/EStop.cs:15 | appends one entry for the message (null as ""), earlier entries unchanged |
| EmergencyStop.EstopEffect | WareHouse_Management/EStop.cs:8-19 | null throws with no change; blank changes nothing; otherwise one alarm line and then one log entry for the message |
| EmergencyStop.EstopRecordsOnce | Warehouse_Management_Test/EstopTests.cs:30-59 | an accepted message adds exactly one alarm line and one log entry, both containing it, behind the earlier ones, and an alarm is then pending |
| EmergencyStop.Estop | WareHouse_Management/EStop.cs:8-19 | throws ArgumentNullException exactly for null; otherwise the stores change exactly as EstopEffect says, and nothing else |
| Sorting.GateFor | WareHouse_Management/Controllers/SortingController.cs:8-13 | ZoneA to Gate1, ZoneB to Gate2, ZoneC to Gate3, any other zone has no gate |
| Sorting.Attempts | WareHouse_Management/Controllers/SortingController.cs:27-45 | the commands of one call and its success: at least one command and no more than the attempts the zone has left, and a failed call has used every one of them |
| Sorting.AttemptsMeaning | WareHouse_Management/Controllers/SortingController.cs:27-45 | one call sends between one and the remaining MaxRetries commands; it succeeds exactly when one would succeed, stops at the first success, and uses every attempt when it fails |
| Sorting.Commands | WareHouse_Management/Controllers/SortingController.cs:27 | the commands a call sends all go to the zone's gate |
| Sorting.SortingController.constructor | WareHouse_Management/Controllers/SortingController.cs:15-19 | no retry counts, and empty last zone and gate |
| Sorting.SortingController.SendGateCommand | WareHouse_Management/Controllers/SortingController.cs:48-53 | one command to the gate; its success is the oracle's |
| Sorting.SortingController.CountFailure | WareHouse_Management/Controllers/SortingController.cs:37-40 | a zone without a count starts from 0, and the count goes up by one; the result stays within [1, MaxRetries] and below MaxRetries the class invariant still holds |
| Sorting.SortingController.SendAndRetry | WareHouse_Management/Controllers/SortingController.cs:26-45 | for a valid zone: the commands sent are the gate repeated as Attempts says, the result is Attempts' success, the zone's count ends at 0, and only success records zone and gate |
| Sorting.SortingController.RoutePackage | WareHouse_Management/Controllers/SortingController.cs:21-46 | blank or unknown zone: false, nothing changes; otherwise the gate is commanded as Attempts says (1 to 3 commands), the zone's count is 0 afterwards, and only success records zone and gate |
| Sorting.OneCallIsBounded | WareHouse_Management/Controllers/SortingController.cs:16 | from any state between calls, one call sends at most MaxRetries (3) commands and fails only after three failed commands |
| Models.ZoneOf | WareHouse_Management/models/RoutingModel.cs:17-30 | blank gives ZoneError; otherwise the table's zone for the upper-cased barcode, or ZoneError when absent |
| Models.ZoneIsKnownOrError | WareHouse_Management/models/RoutingModel.cs:8-13 | every answer is ZoneA, ZoneB, ZoneC or ZoneError |
| Models.ZoneIgnoresCase | WareHouse_Management/models/RoutingModel.cs:22-26 | a barcode and its upper-cased form get the same zone |
| Models.LowerCaseBarcodeIsRouted | Warehouse_Management_Test/RoutingModelTests.cs:50-56 | pkg-abc123 is routed to ZoneA |
| Models.RoutingModel.constructor | WareHouse_Management/models/RoutingModel.cs:15 | the log starts empty |
| Models.RoutingModel.GetTargetZone | WareHouse_Management/models/RoutingModel.cs:17-30 | answers ZoneOf; a blank barcode leaves the log unchanged; any other barcode sets the log entry of its upper-cased form to now; no logged key is ever removed, and every other barcode's entry is unchanged |
| Models.RoutingModel.HasLogEntry | WareHouse_Management/models/RoutingModel.cs:32-35 | whether the key, exactly as given, is logged; null throws |
| Models.RoutingModel.GetTimestamp | WareHouse_Management/models/RoutingModel.cs:37-40 | the logged time, "" for an unknown key; null throws |
| Warehouse.RoutingEngineRoute | WareHouse_Management/RoutingEngine.cs:15-27 | barcode and weight kept; above 50 BLOCKED, below 5 Lane1, [5, 10) Lane2, [10, 50] Lane3 |
| Warehouse.OptimizedRoutingEngineRoute | WareHouse_Management/OptimizedRoutingEngine.cs:7-19 | the same weight ranges and lanes, barcode and weight kept |
| Warehouse.SimpleRoutingEngineRoute | WareHouse_Management/simpleroutingengine.cs:9-23 | the same weight ranges and lanes, barcode and weight kept |
| Warehouse.Route | WareHouse_Management/RoutingEngineAdapter.cs:5-9 | every engine, adapters included, keeps barcode and weight and picks the lane of the weight's range |
| Warehouse.LaneIsDetermined | WareHouse_Management/RoutingEngine.cs:17-26 | the weight ranges name exactly one lane |
| Warehouse.EnginesAgree | WareHouse_Management/RoutingEngineAdapter.cs:9 | every engine, however deeply wrapped in adapters, routes exactly as RoutingEngine |
| Warehouse.LaneMonotone | WareHouse_Management/RoutingEngine.cs:17-26 | a heavier package never gets a lighter lane |
| Warehouse.Boundaries | Warehouse_Management_Test/RoutingOptimizationTests.cs:31-39 | 4.99 Lane1, 5 Lane2, 9.99 Lane2, 10 Lane3, 50 Lane3, 55 BLOCKED |
| Performance.Repeat | WareHouse_Management/RoutingPerformance.cs:20-24 | max(count, 0) copies of the input, none when count <= 0 |
| Performance.Measure | WareHouse_Management/RoutingPerformance.cs:9-18 | one Route call per input, in input order |
| BarcodeReading.MockBarcodeReader.constructor | WareHouse_Management/MockBarcodeReader.cs:8-11 | keeps the caller's array; null becomes an empty array; index 0 |
| BarcodeReading.MockBarcodeReader.Read | WareHouse_Management/MockBarcodeReader.cs:13-19 | "" and no change with no barcodes; otherwise the barcode at the index, the index moving on modulo the length, so the k-th read returns barcodes[k mod length] |

## Left out

- Console output, `Console.Beep`, the colour and the `PrintAllAlarms` listing are left out: they are I/O with no effect on state.
- FileStream sharing modes, UTF-8 encoding, `EnsureDirectory` and `Path.GetFullPath` are not modelled. The file is one shared existence flag plus its lines.
- AlarmService.Alarms.Raise: a message containing a line break becomes several lines when the file is read back. The model keeps one line per raise.
- `DateTime.Now` and its formatting become timestamp strings passed in by the caller. This applies to alarms, log entries, routing-log times and the energy report's timestamp.
- The log service's source is not part of this model. EmergencyStop.LogEntry: the layout of a log line is not known, so the model only relies on an entry containing its message.
- EmergencyStop.Estop: the alarm is raised before the log entry is archived. The two stores are separate, so the order is not observable in the model.
- Doubles are exact reals. No IEEE rounding, NaN or infinity is modelled. The tolerance-based comparisons of the energy tests are stated as exact equalities.
- Transport.WarehouseTransportSystem.constructor requires the conveyor to drive the facade's motor and not to start out running under a latched jam. The source accepts any pair, but its sole use wires one motor to both.
- The test motor driver without a `Stop` method is not modelled. `Stop` clears the run flag, as the second test fake defines it.
- `SimulatedHardware`, `TemperatureSensor`, `EnergyReporter.SaveToCsv`, the demos and `Program` are not part of this model: they are randomness, file output and console programs.
- The `TimeSpan` returned by `RoutingPerformance.Measure` is Stopwatch timing and is left out. Measure's routings are returned as a list so that the call order can be stated. `Repeat`'s lazy `yield` becomes an eagerly built sequence.
- The random gate command of `SortingController` is an oracle over the running number of gate commands.
- Sorting.SortingController.RoutePackage requires the class invariant that every retry count lies in [0, MaxRetries). The count is private, and every call leaves it at 0.
- Warehouse.RoutingEngineRoute: a null barcode is carried through as-is in the source. The model's barcodes are plain strings.
- DotNet.ToUpperInvariant upper-cases the ASCII letters only. The zone answer is unaffected, because the routing table's keys are ASCII. For a barcode with non-ASCII letters, the key that `GetTargetZone` logs differs from the one .NET would log, and `HasLogEntry` and `GetTimestamp` would see that difference. Culture-independent Unicode case mapping is not modelled.

## Findings

| source | as written | input that shows it | evidently intended | confidence | as-written member | corrected member |
|---|---|---|---|---|---|---|
| WareHouse_Management/SystemIntegration/WareHouseTransportSystem.cs:50-54 | the status query calls the real `MotorController.Start()` to test the safety inputs, so on an idle, safe, unjammed line it starts the motor (one forward-start actuation) and then reports "IDLE: Ready to Start." although the motor is now running | motor stopped, no E-Stop, no fault, no jam: `GetSystemStatus()` returns IDLE and `IsRunning` becomes true | the comment asks to check the safety condition "without starting it": the same four answers with no state change | not executed | Transport.StatusActuatesIdleMotor | Transport.StatusProbe |
