# Drive-mode dispatcher, field message and autonomous routines (team 281, 2018)

A Dafny model of three pieces of sequential logic in the robot's code:

- **The drive-mode tick dispatcher** of `RealDriveSubsystem`. The mode is one of DISABLED, CALIBRATE, SPEED_DRIVE and POSITION_DRIVE. There is also an `isInAuto` flag.
  - `periodic()` is a pure `Step(state, calibratorReady)`. It returns the next state and a trace of effects: which controller ran, and which talon group the calibrator patched.
  - The arcade, position and calibrator controllers are opaque. Whether the calibrator reports ready after it has run is an input of the tick.
  - `setMode`, `setAuto` and `teleOp` are events. `Run` folds a sequence of ticks and events. Lemmas about `Run` state what holds over many ticks.
  - The talon wiring that `initialize()` sets up is kept as data (module `DriveWiring`): the four drive talons, the two groups over them, and which group each controller drives.
  - The robot's three init handlers appear only as the `setMode` events they issue (module `RobotLifecycle`).
- **The game-message parser** of `FieldMessageGetter`. It reads characters 0–2 of the field's message into three booleans. It picks the starting position from the two switch readings, which are parameters here.
- **The autonomous routine selection** of `AutoCommandFactory`. Each selector value A–F maps to a literal path of `Forward`/`Left`/`Right` instructions. The path is wrapped in a fixed four-step command group. Both are plain data.

Modules: `Wrappers` (Option, Result), `DriveWiring`, `DriveDispatch`, `RobotLifecycle`, `FieldMessages`, `AutoCommands`.

Two modelling choices follow from code that is not part of this model:

- **`setMode` is plain assignment.** `setMode` is defined in `BaseDriveSubsystem`, which `RealDriveSubsystem` extends (RealDriveSubsystem.java:29) and which is not part of this model; only its calls are visible. It is modelled as assigning the mode at once, in every mode. What the visible code does fix is how calibration ends: the completing tick picks its next mode from `isInAuto` (RealDriveSubsystem.java:144-149), not from any recorded request.
- **Calibrator readiness is an input.** The calibrator is constructed with `CALIBRATION_DRIVE_TIME_MS` = 20 (RealDriveSubsystem.java:32, :127) and decides itself when it is ready; it is not part of this model, so each tick takes whether it reports ready as a parameter.

The game message is modelled as the UTF-16 code units a Java `String` holds, because that is what `charAt` indexes and counts.

Some observations the proofs make precise:

- `makeAutoCommand` maps D to `autoPathE`, so `autoPathD` is never selected.
- `autoPathF` is the same path as `autoPathE`.
- No init handler directly calls `setAuto`, `teleOp` or `setMode(CALIBRATE)`.
  - Ticks reach the subsystem only through `Scheduler.run()` in the periodic handlers (Robot.java:91, :101, :111), and each of those runs after its init handler's `setMode`.
  - So a run that starts with a handler's `setMode`, from any initial mode, and then sees only ticks and those calls never calibrates (`RobotLifecycle.FromInitNeverCalibrates`). From any mode other than CALIBRATE the same holds for runs that do not start with a handler (`RobotLifecycle.LifecycleNeverCalibrates`).
- If `isInAuto` is clear and `setAuto` is not called, a calibration that is under way hands over to SPEED_DRIVE on the tick that completes it (`DriveDispatch.AutoFlagStaysClearWithoutSetAuto`).

## Model

| member | source | states |
|---|---|---|
| DriveWiring.Talons | src/main/java/frc/team281/robot/subsystems/drive/RealDriveSubsystem.java:90-121 | Each group (lines 90-94 for the speed-mode group, 117-121 for the position-mode group) puts front-left and rear-left on the left side and front-right and rear-right on the right; the two sides are disjoint and together cover all four drive talons |
| DriveWiring.LeftSettings | src/main/java/frc/team281/robot/subsystems/drive/RealDriveSubsystem.java:72-107 | The left-side settings of the speed-mode group select speed control, those of the position-mode group position control |
| DriveWiring.RightSettings | src/main/java/frc/team281/robot/subsystems/drive/RealDriveSubsystem.java:81-109 | The right-side settings of each group are that group's left-side settings passed through `inverted(left, false, true)` (line 81 for the speed-mode group, line 109 for the position-mode group) |
| DriveWiring.AppliedSettings | src/main/java/frc/team281/robot/subsystems/drive/RealDriveSubsystem.java:96-123 | `applySettings(left, right)` (line 96 for the speed-mode group, line 123 for the position-mode group) gives the left settings to the talons on the group's left side and the right settings to those on its right side |
| DriveWiring.GroupOf | src/main/java/frc/team281/robot/subsystems/drive/RealDriveSubsystem.java:125-127 | The arcade controller and the calibrator drive the speed-mode group; exactly the position controller drives the position-mode group |
| DriveWiring.ControllerGroupControlMode | src/main/java/frc/team281/robot/subsystems/drive/RealDriveSubsystem.java:72-127 | As `initialize()` configures them, the left pair of the position controller's group is set for position control, and the left pair of the other two controllers' group for speed control; the calibration patch may change them later, which is not modelled |
| DriveDispatch.Initial | src/main/java/frc/team281/robot/subsystems/drive/RealDriveSubsystem.java:51 | A new subsystem starts with `isInAuto` false |
| DriveDispatch.ResumeMode | src/main/java/frc/team281/robot/subsystems/drive/RealDriveSubsystem.java:144-149 | Calibration hands over to POSITION_DRIVE exactly when `isInAuto` is set, and to SPEED_DRIVE exactly when it is not |
| DriveDispatch.ControllerFor | src/main/java/frc/team281/robot/subsystems/drive/RealDriveSubsystem.java:139-158 | CALIBRATE selects the calibrator, SPEED_DRIVE the arcade controller, POSITION_DRIVE the position controller, and DISABLED none; the selected controller drives the group matching the mode |
| DriveDispatch.Step | src/main/java/frc/team281/robot/subsystems/drive/RealDriveSubsystem.java:139-158 | A tick runs at most one controller, the one its mode selects; it never changes `isInAuto`. The mode changes exactly when CALIBRATE sees the calibrator ready, and then to the resume mode. Groups are patched exactly on that tick, after the calibrator ran, speed group before position group, and on that tick neither the arcade nor the position controller runs. DISABLED runs nothing, SPEED_DRIVE only the arcade controller, POSITION_DRIVE only the position controller; none of them changes the state |
| DriveDispatch.Apply | src/main/java/frc/team281/robot/subsystems/drive/RealDriveSubsystem.java:53-58 | `setMode` replaces the mode whatever it was and keeps the flag; `setAuto` sets and `teleOp` clears the flag, keeping the mode |
| DriveDispatch.AutoFlagChangesOnlyByFlagEvents | src/main/java/frc/team281/robot/subsystems/drive/RealDriveSubsystem.java:51-58 | Over any run without `setAuto` or `teleOp`, ticks and `setMode` calls included, `isInAuto` ends as it started |
| DriveDispatch.AutoFlagStaysClearWithoutSetAuto | src/main/java/frc/team281/robot/subsystems/drive/RealDriveSubsystem.java:51-58 | With `isInAuto` clear at the start, any run without `setAuto` (ticks, `setMode` and `teleOp` allowed) ends with it clear; if that run leaves the subsystem in CALIBRATE, the tick that sees the calibrator ready hands over to SPEED_DRIVE |
| DriveDispatch.PositionDriveOnlyByRequest | src/main/java/frc/team281/robot/subsystems/drive/RealDriveSubsystem.java:139-155 | Starting outside POSITION_DRIVE with `isInAuto` false, a run with neither `setAuto` nor `setMode(POSITION_DRIVE)` never reaches POSITION_DRIVE and never runs the position controller: calibration resumes to SPEED_DRIVE |
| DriveDispatch.CalibrationCompletes | src/main/java/frc/team281/robot/subsystems/drive/RealDriveSubsystem.java:139-151 | A run of ticks from CALIBRATE ends in the resume mode if some tick saw the calibrator ready, and in CALIBRATE otherwise |
| DriveDispatch.CalibrationPatchesOnce | src/main/java/frc/team281/robot/subsystems/drive/RealDriveSubsystem.java:139-151 | Over a run of ticks from CALIBRATE, each group is patched exactly once if some tick saw the calibrator ready, and never otherwise |
| DriveDispatch.SettledTicksNeverAdjust | src/main/java/frc/team281/robot/subsystems/drive/RealDriveSubsystem.java:152-158 | A run of ticks outside CALIBRATE leaves the state unchanged and patches no group |
| DriveDispatch.CompletionPatchesEveryControllersGroup | src/main/java/frc/team281/robot/subsystems/drive/RealDriveSubsystem.java:141-145 | On the completing tick, the group of every controller has been patched, and the mode has left CALIBRATE |
| RobotLifecycle.ModeEvent | src/main/java/frc/team281/robot/Robot.java:58-107 | Autonomous init asks for POSITION_DRIVE, disabled init for DISABLED and teleop init for SPEED_DRIVE; no handler's own calls ask for CALIBRATE or touch the auto flag (what the commands autonomous init starts do to the subsystem is unknown) |
| RobotLifecycle.LifecycleNeverCalibrates | src/main/java/frc/team281/robot/Robot.java:58-107 | Driven only by ticks and the init handlers' own `setMode` calls, a subsystem outside CALIBRATE never enters it, never runs the calibrator, never patches a group and keeps its auto flag |
| RobotLifecycle.FromInitNeverCalibrates | src/main/java/frc/team281/robot/Robot.java:58-111 | From any initial mode, a run that starts with an init handler's `setMode` and then sees only ticks and those handlers' own calls never runs the calibrator, never patches a group and leaves `isInAuto` clear |
| FieldMessages.StartingPositionFrom | src/main/java/frc/team281/robot/FieldMessageGetter.java:50-60 | LEFT exactly when the left switch reads true, even if the right one does too; RIGHT exactly when only the right one does; MIDDLE exactly when neither does |
| FieldMessages.ConvertGameMessage | src/main/java/frc/team281/robot/FieldMessageGetter.java:28-62 | Fails exactly on messages shorter than three UTF-16 code units, at the index equal to their length. Otherwise each of the three plate fields is true exactly when its code unit (0, 1, 2) is 'L', and any other code unit gives false. The position comes from the switches |
| FieldMessages.Encode | src/main/java/frc/team281/robot/FieldMessageGetter.java:30-48 | Every field message has a three-unit 'L'/'R' message that parses back to it, given switch readings matching its position |
| FieldMessages.SwitchesFor | src/main/java/frc/team281/robot/FieldMessageGetter.java:50-60 | Every starting position is produced by some switch readings that do not have both switches on |
| FieldMessages.ParseThenEncode | src/main/java/frc/team281/robot/FieldMessageGetter.java:30-48 | A three-unit message over 'L' and 'R' parses successfully and encodes back to itself |
| FieldMessages.TrailingCharactersIgnored | src/main/java/frc/team281/robot/FieldMessageGetter.java:30-48 | Code units after index 2 do not affect the result |
| FieldMessages.FieldsIndependent | src/main/java/frc/team281/robot/FieldMessageGetter.java:28-62 | Changing code unit k changes no plate field but the k-th, and the switch readings change no plate field; with the same switches the position is the same |
| AutoCommands.MakeAutoProcedure | src/main/java/frc/team281/robot/AutoCommandFactory.java:58-66 | The procedure has the fixed four-entry shape (sequential follow-path, parallel 1.5 s lifter raise, sequential wrist pivot down, sequential 2 s shoot), and the path it follows is the one given |
| AutoCommands.AutoProcedureDeterminedByPath | src/main/java/frc/team281/robot/AutoCommandFactory.java:58-66 | Any procedure of that shape is the one made from its own path: only the path differs between procedures |
| AutoCommands.AutoPathA | src/main/java/frc/team281/robot/AutoCommandFactory.java:68-76 | Path A is [Forward 24, Right 90], the builder calls `forward(24).right(90)` in order |
| AutoCommands.AutoPathB | src/main/java/frc/team281/robot/AutoCommandFactory.java:78-86 | Path B is [Forward 158, Right 90], the builder calls `forward(158).right(90)` in order |
| AutoCommands.AutoPathC | src/main/java/frc/team281/robot/AutoCommandFactory.java:88-105 | Path C has 11 instructions that alternate forward and turn, starting and ending with forward |
| AutoCommands.AutoPathD | src/main/java/frc/team281/robot/AutoCommandFactory.java:107-118 | Path D has 5 instructions that alternate forward and turn |
| AutoCommands.AutoPathE | src/main/java/frc/team281/robot/AutoCommandFactory.java:120-127 | Path E is the single instruction Forward 138 |
| AutoCommands.AutoPathF | src/main/java/frc/team281/robot/AutoCommandFactory.java:120-136 | Path F is identical to path E |
| AutoCommands.MakeAutoCommand | src/main/java/frc/team281/robot/AutoCommandFactory.java:31-56 | Every selector value yields a procedure (the `null` default is unreachable) of the fixed shape, whose path starts with Forward and is never path D. A gives [Forward 24, Right 90] and B gives [Forward 158, Right 90]. C gives exactly path C, the alternating 11-instruction path. D, E and F all give [Forward 138] |
| AutoCommands.SelectionTable | src/main/java/frc/team281/robot/AutoCommandFactory.java:31-56 | Two selector values give the same procedure exactly when they are equal or both among D, E and F |

## Left out

- Telemetry logging at the top of `periodic()` (RealDriveSubsystem.java:133-137). It has no effect on the dispatch.
- Hardware construction in `initialize()`: the talon objects, CAN ids and the NavX. The literal settings values (current limits, output limits, gains, motion-profile caps) are also left out, because the settings builder that gives them meaning is not part of this model. Only the speed/position control choice and the `inverted(left, false, true)` derivation are kept.
- The calibrator, arcade and position controllers, the encoder-inches converter and the position calculator (which turns a path into waypoints) are not part of this model. Their effects are opaque trace entries, and calibration readiness is an input.
- DriveWiring.ControllerGroupControlMode: states the control mode of each group's left pair only. The right pair receives `inverted(left, false, true)` (RealDriveSubsystem.java:81 for the speed-mode group, :109 for the position-mode group), and what `inverted` does to the control mode is not modelled.
- `FourTalonsWithSettings` and its `applySettings` are not part of this model. Which talons form the left and right pairs is read from the constructor's parameter names in the comments at RealDriveSubsystem.java:89 and :116, and from the names of the settings passed to `applySettings` (`leftSpeedSettings`/`rightSpeedSettings`, `leftPositionSettings`/`rightPositionSettings`). `DriveWiring.Talons` and `DriveWiring.AppliedSettings` rest on that reading.
- The broken-encoder patch itself (`adjustTalonSettingsToWorkAroundBrokenEncoders`) is an opaque effect on a group. What it changes in the settings is not modelled.
- `setMode` lives in the drive base class, which is not part of this model. It is modelled as plain assignment, and the initial mode that class sets is a parameter of `Initial`.
- The `DigitalInput` reads in `FieldMessageGetter` are boolean parameters. How the switch hardware reports its state is not modelled.
- FieldMessages.ConvertGameMessage: a `null` game message, which makes `charAt` throw a `NullPointerException`, is not modelled, because a sequence of code units cannot be null.
- AutoCommands.MakeAutoCommand: the selector type `WhichAutoCodeToRun` is not part of this model and is taken to have exactly the six values A–F the switch names; with any further value the default branch would return `null` (AutoCommandFactory.java:52-55). A `null` selector, which makes the `switch` throw a `NullPointerException` (AutoCommandFactory.java:33), is not modelled either.
- Path distances and angles are integers. Every literal in the source is an integer.
- The command classes (grabber close and stop, lifter lower) and the scheduler's sequential/parallel execution of a command group are left out. Procedures are data only. The second `GrabberCloseCommand` constructor leaves its grabber unset; that code is not part of this model.
- The scheduler pumping, startup and the null-returning command-factory stubs in `Robot` are left out. `autonomousInit` also starts a command group of `DriveToPositionCommand`s over the drive subsystem (Robot.java:61-76), which the scheduler pumping (Robot.java:91, :101, :111) runs; those command classes are not part of this model, so their effect on the mode and on `isInAuto` is unknown. The lifecycle lemmas cover only the handlers' own `setMode` calls.
