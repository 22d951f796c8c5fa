/** The drive-mode tick dispatcher of RealDriveSubsystem: a four-state machine over
    DriveMode plus the `isInAuto` flag. Each tick runs at most one sub-controller;
    the controllers themselves are opaque and show up only as effects in a trace.
    Whether the calibrator reports ready after it has run is an input of the tick. */
module DriveDispatch {
  import opened Wrappers
  import opened DriveWiring

  /** BaseDriveSubsystem.DriveMode. */
  datatype DriveMode = Disabled | Calibrate | SpeedDrive | PositionDrive

  /** The dispatcher's state: the active mode and the auto flag. */
  datatype DriveState = DriveState(mode: DriveMode, isInAuto: bool)

  /** What a tick does, in order: run a controller, or have the calibrator patch
      the talon settings of a group to work around broken encoders. */
  datatype Effect = Ran(controller: Controller) | Adjusted(group: GroupId)

  /** The state after a tick (or a run of inputs) and the effects it produced, in order. */
  datatype TickResult = TickResult(next: DriveState, effects: seq<Effect>)

  /** Calls from outside the tick: `setMode` (plain assignment), `setAuto`, `teleOp`. */
  datatype Event = SetMode(mode: DriveMode) | SetAuto | TeleOp

  /** One input to the subsystem: a periodic tick, carrying what the calibrator
      reports after it has run (ignored unless the mode is CALIBRATE), or an event. */
  datatype Input = Tick(calibratorReady: bool) | Fire(event: Event)

  /** A freshly constructed subsystem: the initial mode is set by the base class
      and is a parameter here; `isInAuto` starts false. */
  function Initial(mode: DriveMode): (s: DriveState)
    ensures s.mode == mode && !s.isInAuto
  {
    DriveState(mode, false)
  }

  /** The controllers a sequence of effects runs, in order. */
  function Controllers(effects: seq<Effect>): (cs: seq<Controller>)
    ensures |cs| <= |effects|
    ensures forall c :: c in cs <==> Ran(c) in effects
  {
    if |effects| == 0 then []
    else (if effects[0].Ran? then [effects[0].controller] else []) + Controllers(effects[1..])
  }

  /** The mode calibration hands over to. */
  function ResumeMode(isInAuto: bool): (m: DriveMode)
    ensures m == PositionDrive <==> isInAuto
    ensures m == SpeedDrive <==> !isInAuto
  {
    if isInAuto then PositionDrive else SpeedDrive
  }

  /** The controller a mode dispatches to, if any. */
  function ControllerFor(mode: DriveMode): (c: Option<Controller>)
    ensures c.None? <==> mode == Disabled
    ensures mode == Calibrate ==> c == Some(CalibratorController)
    ensures mode == SpeedDrive ==> c == Some(ArcadeController)
    ensures mode == PositionDrive ==> c == Some(PositionController)
    ensures c.Some? ==> GroupOf(c.value) == (if mode == PositionDrive then PositionModeTalons else SpeedModeTalons)
  {
    match mode
    case Disabled => None
    case Calibrate => Some(CalibratorController)
    case SpeedDrive => Some(ArcadeController)
    case PositionDrive => Some(PositionController)
  }

  /** `periodic()`: one tick of the if/else-if chain over the mode. */
  function Step(s: DriveState, calibratorReady: bool): (r: TickResult)
    // the flag is only ever changed by events, never by a tick
    ensures r.next.isInAuto == s.isInAuto
    // at most one controller runs, and it is the one the current mode selects
    ensures |Controllers(r.effects)| <= 1
    ensures ControllerFor(s.mode).None? ==> Controllers(r.effects) == []
    ensures ControllerFor(s.mode).Some? ==> Controllers(r.effects) == [ControllerFor(s.mode).value]
    // the only transition a tick makes is calibration completing
    ensures r.next.mode != s.mode <==> s.mode == Calibrate && calibratorReady
    ensures r.next.mode != s.mode ==> r.next.mode == ResumeMode(s.isInAuto)
    // the calibrator runs first; the groups are patched, speed group first, exactly on the completing tick
    ensures s.mode == Calibrate ==> r.effects[0] == Ran(CalibratorController)
    ensures (exists g :: Adjusted(g) in r.effects) <==> r.next.mode != s.mode
    ensures r.next.mode != s.mode ==>
              r.effects == [Ran(CalibratorController), Adjusted(SpeedModeTalons), Adjusted(PositionModeTalons)]
    // outside calibration a tick is the single controller run, or nothing when disabled
    ensures s.mode == Disabled ==> r == TickResult(s, [])
    ensures s.mode == SpeedDrive ==> r == TickResult(s, [Ran(ArcadeController)])
    ensures s.mode == PositionDrive ==> r == TickResult(s, [Ran(PositionController)])
  {
    match s.mode
    case Calibrate =>
      if calibratorReady then
        TickResult(s.(mode := ResumeMode(s.isInAuto)),
                   [Ran(CalibratorController), Adjusted(SpeedModeTalons), Adjusted(PositionModeTalons)])
      else
        TickResult(s, [Ran(CalibratorController)])
    case PositionDrive => TickResult(s, [Ran(PositionController)])
    case SpeedDrive => TickResult(s, [Ran(ArcadeController)])
    case Disabled => TickResult(s, [])
  }

  /** The effect of an event on the state. `setMode` assigns the mode whatever the
      current one is; `setAuto` and `teleOp` set and clear the flag. */
  function Apply(s: DriveState, e: Event): (s': DriveState)
    ensures e.SetMode? ==> s'.mode == e.mode && s'.isInAuto == s.isInAuto
    ensures e.SetAuto? ==> s'.isInAuto && s'.mode == s.mode
    ensures e.TeleOp? ==> !s'.isInAuto && s'.mode == s.mode
  {
    match e
    case SetMode(m) => s.(mode := m)
    case SetAuto => s.(isInAuto := true)
    case TeleOp => s.(isInAuto := false)
  }

  /** One input: a tick produces effects, an event produces none. */
  function Handle(s: DriveState, i: Input): (r: TickResult)
    ensures i.Fire? ==> r.effects == []
  {
    match i
    case Tick(ready) => Step(s, ready)
    case Fire(e) => TickResult(Apply(s, e), [])
  }

  /** A run of inputs processed in order; the effects of all ticks concatenated. */
  function Run(s: DriveState, inputs: seq<Input>): (r: TickResult)
    decreases |inputs|
  {
    if |inputs| == 0 then TickResult(s, [])
    else
      var first := Handle(s, inputs[0]);
      var rest := Run(first.next, inputs[1..]);
      TickResult(rest.next, first.effects + rest.effects)
  }

  /** No input calls `setAuto` or `teleOp`. */
  predicate NoFlagEvents(inputs: seq<Input>) {
    forall i :: 0 <= i < |inputs| ==> inputs[i].Fire? ==> inputs[i].event.SetMode?
  }

  /** Every input is a tick. */
  predicate OnlyTicks(inputs: seq<Input>) {
    forall i :: 0 <= i < |inputs| ==> inputs[i].Tick?
  }

  /** Some tick of the run sees the calibrator ready. */
  predicate SomeTickReady(inputs: seq<Input>) {
    exists i :: 0 <= i < |inputs| && inputs[i].Tick? && inputs[i].calibratorReady
  }

  /** `isInAuto` is changed only by `setAuto` and `teleOp`. */
  lemma {:induction false} AutoFlagChangesOnlyByFlagEvents(s: DriveState, inputs: seq<Input>)
    requires NoFlagEvents(inputs)
    ensures Run(s, inputs).next.isInAuto == s.isInAuto
    decreases |inputs|
  {
    if |inputs| > 0 {
      var first := Handle(s, inputs[0]);
      assert NoFlagEvents(inputs[1..]) by {
        forall i | 0 <= i < |inputs[1..]|
          ensures inputs[1..][i].Fire? ==> inputs[1..][i].event.SetMode?
        {
          assert inputs[1..][i] == inputs[i + 1];
        }
      }
      AutoFlagChangesOnlyByFlagEvents(first.next, inputs[1..]);
    }
  }

  /** Once clear, `isInAuto` stays clear until `setAuto` is called, whatever ticks,
      `setMode` and `teleOp` calls come in between; so a calibration still under way
      after such a run hands over to SPEED_DRIVE on the tick that completes it. */
  lemma {:induction false} AutoFlagStaysClearWithoutSetAuto(s: DriveState, inputs: seq<Input>)
    requires !s.isInAuto
    requires forall i :: 0 <= i < |inputs| ==> inputs[i] != Fire(SetAuto)
    ensures !Run(s, inputs).next.isInAuto
    ensures Run(s, inputs).next.mode == Calibrate ==> Step(Run(s, inputs).next, true).next.mode == SpeedDrive
    decreases |inputs|
  {
    if |inputs| > 0 {
      var first := Handle(s, inputs[0]);
      assert !first.next.isInAuto;
      var tail := inputs[1..];
      assert forall i :: 0 <= i < |tail| ==> tail[i] == inputs[i + 1];
      AutoFlagStaysClearWithoutSetAuto(first.next, tail);
    }
  }

  /** From a subsystem that has never had `setAuto` called, without `setAuto`,
      calibration resumes to SPEED_DRIVE: POSITION_DRIVE is reached, and the position
      controller runs, only after an explicit `setMode(POSITION_DRIVE)`. */
  lemma {:induction false} PositionDriveOnlyByRequest(s: DriveState, inputs: seq<Input>)
    requires s.mode != PositionDrive && !s.isInAuto
    requires forall i :: 0 <= i < |inputs| ==> inputs[i] != Fire(SetAuto) && inputs[i] != Fire(SetMode(PositionDrive))
    ensures Run(s, inputs).next.mode != PositionDrive
    ensures !Run(s, inputs).next.isInAuto
    ensures Ran(PositionController) !in Run(s, inputs).effects
    decreases |inputs|
  {
    if |inputs| > 0 {
      var first := Handle(s, inputs[0]);
      assert first.next.mode != PositionDrive && !first.next.isInAuto;
      assert Ran(PositionController) !in first.effects;
      var tail := inputs[1..];
      assert forall i :: 0 <= i < |tail| ==> tail[i] == inputs[i + 1];
      PositionDriveOnlyByRequest(first.next, tail);
    }
  }

  /** Dropping a first tick that does not see the calibrator ready keeps a run of
      ticks a run of ticks and does not change whether some tick sees it ready. */
  lemma DropUnreadyTick(inputs: seq<Input>)
    requires |inputs| > 0 && OnlyTicks(inputs)
    ensures OnlyTicks(inputs[1..])
    ensures !inputs[0].calibratorReady ==> (SomeTickReady(inputs) <==> SomeTickReady(inputs[1..]))
  {
  }

  /** A run of ticks from CALIBRATE stays in CALIBRATE until the first tick that
      sees the calibrator ready, and then is in the resume mode chosen by the flag. */
  lemma {:induction false} CalibrationCompletes(s: DriveState, inputs: seq<Input>)
    requires s.mode == Calibrate
    requires OnlyTicks(inputs)
    ensures Run(s, inputs).next.mode == (if SomeTickReady(inputs) then ResumeMode(s.isInAuto) else Calibrate)
    decreases |inputs|
  {
    if |inputs| > 0 {
      DropUnreadyTick(inputs);
      var first := Step(s, inputs[0].calibratorReady);
      if inputs[0].calibratorReady {
        assert SomeTickReady(inputs);
        SettledTicksNeverAdjust(first.next, inputs[1..]);
      } else {
        CalibrationCompletes(first.next, inputs[1..]);
      }
    }
  }

  /** Over a run of ticks from CALIBRATE, each group is patched exactly once if some
      tick sees the calibrator ready, and never otherwise. */
  lemma {:induction false} CalibrationPatchesOnce(s: DriveState, inputs: seq<Input>)
    requires s.mode == Calibrate
    requires OnlyTicks(inputs)
    ensures multiset(Run(s, inputs).effects)[Adjusted(SpeedModeTalons)] == (if SomeTickReady(inputs) then 1 else 0)
    ensures multiset(Run(s, inputs).effects)[Adjusted(PositionModeTalons)] == (if SomeTickReady(inputs) then 1 else 0)
    decreases |inputs|
  {
    if |inputs| > 0 {
      DropUnreadyTick(inputs);
      var first := Step(s, inputs[0].calibratorReady);
      var rest := Run(first.next, inputs[1..]);
      assert Run(s, inputs).effects == first.effects + rest.effects;
      assert multiset(first.effects + rest.effects) == multiset(first.effects) + multiset(rest.effects);
      if inputs[0].calibratorReady {
        assert SomeTickReady(inputs);
        SettledTicksNeverAdjust(first.next, inputs[1..]);
        assert multiset(rest.effects)[Adjusted(SpeedModeTalons)] == 0;
        assert multiset(rest.effects)[Adjusted(PositionModeTalons)] == 0;
      } else {
        assert first.effects == [Ran(CalibratorController)];
        CalibrationPatchesOnce(first.next, inputs[1..]);
      }
    }
  }

  /** Ticks outside CALIBRATE never change the state and never patch a group. */
  lemma {:induction false} SettledTicksNeverAdjust(s: DriveState, inputs: seq<Input>)
    requires s.mode != Calibrate
    requires OnlyTicks(inputs)
    ensures Run(s, inputs).next == s
    ensures forall g :: Adjusted(g) !in Run(s, inputs).effects
    decreases |inputs|
  {
    if |inputs| > 0 {
      var tail := inputs[1..];
      assert forall i :: 0 <= i < |tail| ==> tail[i] == inputs[i + 1];
      SettledTicksNeverAdjust(s, tail);
    }
  }

  /** On the tick calibration completes, every group some controller drives has been
      patched before the mode hands over to that controller. */
  lemma CompletionPatchesEveryControllersGroup(s: DriveState, c: Controller)
    requires s.mode == Calibrate
    ensures Adjusted(GroupOf(c)) in Step(s, true).effects
    ensures Step(s, true).next.mode != Calibrate
  {
  }
}
