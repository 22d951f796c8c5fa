/** AutoCommandFactory: the autonomous routine for each selector value, as plain
    data. A path is the list of relative instructions handed to the position
    calculator's builder; a procedure is the command group wrapped around it.
    How the scheduler runs a group, and how a path becomes waypoints, are not
    part of this model. */
module AutoCommands {
  import opened Wrappers

  /** One builder call: `forward(inches)`, `left(degrees)` or `right(degrees)`. */
  datatype Instruction = Forward(inches: int) | Left(degrees: int) | Right(degrees: int)

  /** WhichAutoCodeToRun. */
  datatype WhichAutoCodeToRun = A | B | C | D | E | F

  /** The commands an autonomous procedure is built from; each keeps the literal
      argument it is constructed with. */
  datatype Command =
    | FollowPositionPath(path: seq<Instruction>)
    | LifterRaiseSeconds(seconds: real)
    | WristPivotDown
    | GrabberShoot(seconds: real)

  /** A command added to a CommandGroup with `addSequential` or `addParallel`. */
  datatype Entry = Sequential(command: Command) | Parallel(command: Command)

  type Procedure = seq<Entry>

  /** A path whose instructions alternate forward and turn, starting and ending forward. */
  predicate AlternatesForwardAndTurn(path: seq<Instruction>) {
    && |path| % 2 == 1
    && forall k :: 0 <= k < |path| ==> (path[k].Forward? <==> k % 2 == 0)
  }

  /** The fixed shape every autonomous procedure has, in this order: follow the
      path, raise the lifter for 1.5 s alongside, pivot the wrist down, shoot for 2 s. */
  predicate IsAutoProcedure(p: Procedure) {
    && |p| == 4
    && p[0].Sequential? && p[0].command.FollowPositionPath?
    && p[1] == Parallel(LifterRaiseSeconds(1.5))
    && p[2] == Sequential(WristPivotDown)
    && p[3] == Sequential(GrabberShoot(2.0))
  }

  /** The path an autonomous procedure follows. */
  function FollowedPath(p: Procedure): (path: seq<Instruction>)
    requires IsAutoProcedure(p)
  {
    p[0].command.path
  }

  /** `makeAutoProcedure`: wraps a path in the fixed four-step procedure. Only the
      path differs between procedures. */
  function MakeAutoProcedure(path: seq<Instruction>): (p: Procedure)
    ensures IsAutoProcedure(p)
    ensures FollowedPath(p) == path
  {
    [ Sequential(FollowPositionPath(path)),
      Parallel(LifterRaiseSeconds(1.5)),
      Sequential(WristPivotDown),
      Sequential(GrabberShoot(2.0)) ]
  }

  /** Every procedure of the fixed shape is the one made from the path it follows. */
  lemma AutoProcedureDeterminedByPath(p: Procedure)
    requires IsAutoProcedure(p)
    ensures MakeAutoProcedure(FollowedPath(p)) == p
  {
  }

  /** `autoPathA`: forward 24 in, turn right 90 degrees. */
  function AutoPathA(): (path: seq<Instruction>)
    ensures path == [Forward(24), Right(90)]
  {
    [Forward(24), Right(90)]
  }

  /** `autoPathB`: forward 158 in, turn right 90 degrees. */
  function AutoPathB(): (path: seq<Instruction>)
    ensures path == [Forward(158), Right(90)]
  {
    [Forward(158), Right(90)]
  }

  /** `autoPathC`: eleven instructions, forward and turn in turn. */
  function AutoPathC(): (path: seq<Instruction>)
    ensures |path| == 11
    ensures AlternatesForwardAndTurn(path)
  {
    [ Forward(24), Left(25), Forward(111), Right(35), Forward(84), Right(45),
      Forward(52), Right(45), Forward(110), Right(90), Forward(41) ]
  }

  /** `autoPathD`: defined, but selected by no routine (see MakeAutoCommand). */
  function AutoPathD(): (path: seq<Instruction>)
    ensures |path| == 5
    ensures AlternatesForwardAndTurn(path)
  {
    [Forward(24), Left(42), Forward(82), Right(40), Forward(45)]
  }

  /** `autoPathE`: forward 138 in. */
  function AutoPathE(): (path: seq<Instruction>)
    ensures path == [Forward(138)]
  {
    [Forward(138)]
  }

  /** `autoPathF`: written out separately, yet the same path as `autoPathE`. */
  function AutoPathF(): (path: seq<Instruction>)
    ensures path == AutoPathE()
  {
    [Forward(138)]
  }

  /** `makeAutoCommand`: the procedure for a selector value; `None` stands for the
      `null` of the switch's default branch, which no value reaches. D selects
      path E, so path D is never selected. */
  function MakeAutoCommand(which: WhichAutoCodeToRun): (r: Option<Procedure>)
    ensures r.Some?
    ensures IsAutoProcedure(r.value)
    ensures FollowedPath(r.value) != AutoPathD()
    ensures |FollowedPath(r.value)| > 0 && FollowedPath(r.value)[0].Forward?
    ensures which == A ==> FollowedPath(r.value) == [Forward(24), Right(90)]
    ensures which == B ==> FollowedPath(r.value) == [Forward(158), Right(90)]
    ensures which == C ==> FollowedPath(r.value) == AutoPathC()
    ensures which == C ==> AlternatesForwardAndTurn(FollowedPath(r.value)) && |FollowedPath(r.value)| == 11
    ensures which in {D, E, F} ==> FollowedPath(r.value) == [Forward(138)]
  {
    match which
    case A => Some(MakeAutoProcedure(AutoPathA()))
    case B => Some(MakeAutoProcedure(AutoPathB()))
    case C => Some(MakeAutoProcedure(AutoPathC()))
    case D => Some(MakeAutoProcedure(AutoPathE()))
    case E => Some(MakeAutoProcedure(AutoPathE()))
    case F => Some(MakeAutoProcedure(AutoPathF()))
  }

  /** D, E and F select the same routine; A, B and C each select a routine of their own. */
  lemma SelectionTable(x: WhichAutoCodeToRun, y: WhichAutoCodeToRun)
    ensures MakeAutoCommand(x) == MakeAutoCommand(y) <==> x == y || (x in {D, E, F} && y in {D, E, F})
  {
  }
}
