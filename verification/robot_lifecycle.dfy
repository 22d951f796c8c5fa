/** The robot's lifecycle handlers, seen only through what they ask of the drive
    subsystem: each init handler issues one `setMode` call. Scheduler pumping,
    startup and the command-factory stubs are not part of this model. */
module RobotLifecycle {
  import opened DriveWiring
  import opened DriveDispatch

  /** The init handlers that touch the drive subsystem. */
  datatype Handler = AutonomousInit | DisabledInit | TeleopInit

  /** The drive event each handler issues. None of them enters CALIBRATE, and none
      calls `setAuto` or `teleOp`. */
  function ModeEvent(h: Handler): (e: Event)
    ensures e.SetMode? && e.mode != Calibrate
    ensures e.mode == PositionDrive <==> h == AutonomousInit
    ensures e.mode == Disabled <==> h == DisabledInit
    ensures e.mode == SpeedDrive <==> h == TeleopInit
  {
    match h
    case AutonomousInit => SetMode(PositionDrive)
    case DisabledInit => SetMode(Disabled)
    case TeleopInit => SetMode(SpeedDrive)
  }

  /** An input the running robot produces: a tick, or the event of some handler. */
  predicate FromLifecycle(i: Input) {
    i.Tick?
    || i.event == ModeEvent(AutonomousInit)
    || i.event == ModeEvent(DisabledInit)
    || i.event == ModeEvent(TeleopInit)
  }

  /** Driven only by ticks and the init handlers, a subsystem that is not calibrating
      never starts to: the calibrator never runs, no group is ever patched, and the
      auto flag keeps its value. */
  lemma {:induction false} LifecycleNeverCalibrates(s: DriveState, inputs: seq<Input>)
    requires s.mode != Calibrate
    requires forall i :: 0 <= i < |inputs| ==> FromLifecycle(inputs[i])
    ensures Run(s, inputs).next.mode != Calibrate
    ensures Run(s, inputs).next.isInAuto == s.isInAuto
    ensures Ran(CalibratorController) !in Run(s, inputs).effects
    ensures forall g :: Adjusted(g) !in Run(s, inputs).effects
    decreases |inputs|
  {
    if |inputs| > 0 {
      var first := Handle(s, inputs[0]);
      assert first.next.mode != Calibrate && first.next.isInAuto == s.isInAuto;
      var tail := inputs[1..];
      assert forall i :: 0 <= i < |tail| ==> tail[i] == inputs[i + 1];
      LifecycleNeverCalibrates(first.next, tail);
    }
  }

  /** Whatever mode the base class starts in, a run of the running robot begins with
      an init handler's `setMode` (the scheduler, and so every tick, is pumped only
      by the periodic handler that follows its init handler). Such a run never runs
      the calibrator, never patches a group and keeps the auto flag clear. */
  lemma FromInitNeverCalibrates(m: DriveMode, h: Handler, inputs: seq<Input>)
    requires forall i :: 0 <= i < |inputs| ==> FromLifecycle(inputs[i])
    ensures Ran(CalibratorController) !in Run(Initial(m), [Fire(ModeEvent(h))] + inputs).effects
    ensures forall g :: Adjusted(g) !in Run(Initial(m), [Fire(ModeEvent(h))] + inputs).effects
    ensures !Run(Initial(m), [Fire(ModeEvent(h))] + inputs).next.isInAuto
  {
    var all := [Fire(ModeEvent(h))] + inputs;
    assert all[1..] == inputs;
    var first := Handle(Initial(m), all[0]);
    assert first.effects == [] && first.next.mode != Calibrate && !first.next.isInAuto;
    LifecycleNeverCalibrates(first.next, inputs);
  }
}
