/** The hardware wiring that RealDriveSubsystem.initialize sets up, as data:
    the four drive Talons, the two FourTalonsWithSettings groups built over them,
    the settings each group receives, and the group each sub-controller drives.
    Hardware construction, CAN ids and the literal settings values are opaque. */
module DriveWiring {

  /** The four drive motor controllers. */
  datatype Talon = FrontLeft | FrontRight | RearLeft | RearRight

  /** A FourTalonsWithSettings group; the fields follow its constructor order
      (front-left, rear-left, front-right, rear-right). */
  datatype FourTalons = FourTalons(frontLeft: Talon, rearLeft: Talon, frontRight: Talon, rearRight: Talon)
  {
    /** The talons that receive the left-side settings. */
    function LeftSide(): set<Talon> {
      {frontLeft, rearLeft}
    }

    /** The talons that receive the right-side settings. */
    function RightSide(): set<Talon> {
      {frontRight, rearRight}
    }
  }

  /** The two groups: one configured for open-loop speed control, one for closed-loop position control. */
  datatype GroupId = SpeedModeTalons | PositionModeTalons

  /** The three sub-controllers the drive subsystem owns. */
  datatype Controller = CalibratorController | ArcadeController | PositionController

  /** The control mode a settings builder selects (`useSpeedControl` / `usePositionControl`). */
  datatype ControlMode = SpeedControl | PositionControl

  /** Talon settings. The literal values (current limits, output limits, gains,
      motion-profile caps) go to a builder that is not part of this model, so only
      the control-mode choice is kept, together with how the right-side settings are
      derived from the left-side ones (`TalonSettingsBuilder.inverted(base, a, b)`,
      whose meaning is likewise not modelled). */
  datatype TalonSettings =
    | Built(control: ControlMode)
    | InvertedFrom(base: TalonSettings, firstFlag: bool, secondFlag: bool)

  const AllTalons: set<Talon> := {FrontLeft, FrontRight, RearLeft, RearRight}

  /** The talons a group is built over. Both groups wrap the same four motors and
      split them into a left pair and a right pair. */
  function Talons(g: GroupId): (t: FourTalons)
    ensures t.LeftSide() == {FrontLeft, RearLeft}
    ensures t.RightSide() == {FrontRight, RearRight}
    ensures t.LeftSide() + t.RightSide() == AllTalons
    ensures t.LeftSide() !! t.RightSide()
  {
    FourTalons(FrontLeft, RearLeft, FrontRight, RearRight)
  }

  /** The settings applied to the left pair of a group. */
  function LeftSettings(g: GroupId): (s: TalonSettings)
    ensures s.Built?
    ensures s.control == SpeedControl <==> g == SpeedModeTalons
  {
    match g
    case SpeedModeTalons => Built(SpeedControl)
    case PositionModeTalons => Built(PositionControl)
  }

  /** The settings applied to the right pair: the left settings passed through
      `inverted(left, false, true)`. */
  function RightSettings(g: GroupId): (s: TalonSettings)
    ensures s.InvertedFrom? && s.base == LeftSettings(g)
    ensures !s.firstFlag && s.secondFlag
  {
    InvertedFrom(LeftSettings(g), false, true)
  }

  /** The settings `applySettings(left, right)` gives one talon of a group. */
  function AppliedSettings(g: GroupId, t: Talon): (s: TalonSettings)
    ensures t in Talons(g).LeftSide() ==> s == LeftSettings(g)
    ensures t in Talons(g).RightSide() ==> s == RightSettings(g)
  {
    if t == FrontLeft || t == RearLeft then LeftSettings(g) else RightSettings(g)
  }

  /** The group each sub-controller is constructed with. The arcade controller and
      the calibrator share the speed-mode group; the position controller alone uses
      the position-mode group. */
  function GroupOf(c: Controller): (g: GroupId)
    ensures g == SpeedModeTalons <==> c != PositionController
    ensures g == PositionModeTalons <==> c == PositionController
  {
    match c
    case CalibratorController => SpeedModeTalons
    case ArcadeController => SpeedModeTalons
    case PositionController => PositionModeTalons
  }

  /** Every controller drives a group whose left talons are configured for speed
      control exactly when that controller is not the position controller. */
  lemma ControllerGroupControlMode(c: Controller)
    ensures LeftSettings(GroupOf(c)).control == (if c == PositionController then PositionControl else SpeedControl)
  {
  }
}
