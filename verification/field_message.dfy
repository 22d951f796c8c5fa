/** FieldMessageGetter: turns the field's game-specific message and the two
    starting-position switch readings into a FieldMessage. The DigitalInput reads
    are boolean parameters. */
module FieldMessages {
  import opened Wrappers

  /** FieldMessage.StartingPosition. */
  datatype StartingPosition = Left | Middle | Right

  /** FieldMessage: which side our switch, our scale and their switch are on
      (true for left), and where the robot starts. */
  datatype FieldMessage = FieldMessage(
    ourSwitchOnTheLeft: bool,
    ourScaleOnTheLeft: bool,
    theirSwitchOnTheLeft: bool,
    position: StartingPosition)

  /** One UTF-16 code unit: a Java `String` is a sequence of these, and `charAt`
      indexes and counts them (a lone surrogate is a code unit like any other). */
  newtype CodeUnit = x: int | 0 <= x < 0x1_0000

  /** A Java string, as the code units `charAt` sees. */
  type JavaString = seq<CodeUnit>

  /** The code units of 'L' and 'R'. */
  const LeftCode: CodeUnit := 0x4C
  const RightCode: CodeUnit := 0x52

  /** The exception `String.charAt` raises: the first index the message lacks. */
  datatype ParseError = StringIndexOutOfBounds(index: nat)

  /** A plate is on the left exactly when its code unit is 'L'; any other
      code unit, not only 'R', means right. */
  predicate OnTheLeft(c: CodeUnit) {
    c == LeftCode
  }

  /** The starting position from the two switches; the left switch wins. */
  function StartingPositionFrom(robotOnTheLeft: bool, robotOnTheRight: bool): (p: StartingPosition)
    ensures p == Left <==> robotOnTheLeft
    ensures p == Right <==> !robotOnTheLeft && robotOnTheRight
    ensures p == Middle <==> !robotOnTheLeft && !robotOnTheRight
  {
    if robotOnTheLeft then Left
    else if robotOnTheRight then Right
    else Middle
  }

  /** `convertGameMessageToFieldMessage`: code units 0, 1 and 2 give our switch, our
      scale and their switch; a message shorter than three code units makes
      `charAt` fail at its length. */
  function ConvertGameMessage(gameMessage: JavaString, robotOnTheLeft: bool, robotOnTheRight: bool)
    : (r: Result<FieldMessage, ParseError>)
    ensures r.Failure? <==> |gameMessage| < 3
    ensures r.Failure? ==> r.error == StringIndexOutOfBounds(|gameMessage|)
    ensures r.Success? ==>
              && (r.value.ourSwitchOnTheLeft <==> gameMessage[0] == LeftCode)
              && (r.value.ourScaleOnTheLeft <==> gameMessage[1] == LeftCode)
              && (r.value.theirSwitchOnTheLeft <==> gameMessage[2] == LeftCode)
              && r.value.position == StartingPositionFrom(robotOnTheLeft, robotOnTheRight)
  {
    if |gameMessage| < 3 then Failure(StringIndexOutOfBounds(|gameMessage|))
    else
      Success(FieldMessage(
        OnTheLeft(gameMessage[0]),
        OnTheLeft(gameMessage[1]),
        OnTheLeft(gameMessage[2]),
        StartingPositionFrom(robotOnTheLeft, robotOnTheRight)))
  }

  /** The character the field sends for a plate side. */
  function SideChar(onTheLeft: bool): (c: CodeUnit)
    ensures OnTheLeft(c) == onTheLeft
    ensures c == LeftCode || c == RightCode
  {
    if onTheLeft then LeftCode else RightCode
  }

  /** The three-unit game message that describes a FieldMessage's plates;
      parsing it gives those plates back. */
  function Encode(m: FieldMessage): (s: JavaString)
    ensures |s| == 3
    ensures forall k :: 0 <= k < |s| ==> s[k] == LeftCode || s[k] == RightCode
    ensures ConvertGameMessage(s, m.position == Left, m.position == Right) == Success(m)
  {
    [SideChar(m.ourSwitchOnTheLeft), SideChar(m.ourScaleOnTheLeft), SideChar(m.theirSwitchOnTheLeft)]
  }

  /** Switch readings that produce a given starting position. */
  function SwitchesFor(p: StartingPosition): (sw: (bool, bool))
    ensures StartingPositionFrom(sw.0, sw.1) == p
    ensures !(sw.0 && sw.1)
  {
    (p == Left, p == Right)
  }

  /** A well-formed message over 'L' and 'R' is reproduced by parsing then encoding. */
  lemma ParseThenEncode(gameMessage: JavaString, robotOnTheLeft: bool, robotOnTheRight: bool)
    requires |gameMessage| == 3
    requires forall k :: 0 <= k < 3 ==> gameMessage[k] == LeftCode || gameMessage[k] == RightCode
    ensures ConvertGameMessage(gameMessage, robotOnTheLeft, robotOnTheRight).Success?
    ensures Encode(ConvertGameMessage(gameMessage, robotOnTheLeft, robotOnTheRight).value) == gameMessage
  {
  }

  /** Code units after index 2 do not affect the result. */
  lemma TrailingCharactersIgnored(gameMessage: JavaString, suffix: JavaString, robotOnTheLeft: bool, robotOnTheRight: bool)
    requires |gameMessage| >= 3
    ensures ConvertGameMessage(gameMessage + suffix, robotOnTheLeft, robotOnTheRight)
         == ConvertGameMessage(gameMessage[..3], robotOnTheLeft, robotOnTheRight)
  {
  }

  /** Each field depends only on its own input: replacing code unit k changes no
      field but the k-th, and the switches change only the position. */
  lemma FieldsIndependent(gameMessage: JavaString, k: nat, c: CodeUnit,
                          robotOnTheLeft: bool, robotOnTheRight: bool,
                          otherLeft: bool, otherRight: bool)
    requires |gameMessage| >= 3 && k < 3
    ensures var a := ConvertGameMessage(gameMessage, robotOnTheLeft, robotOnTheRight).value;
            var b := ConvertGameMessage(gameMessage[k := c], otherLeft, otherRight).value;
            && (k != 0 ==> a.ourSwitchOnTheLeft == b.ourSwitchOnTheLeft)
            && (k != 1 ==> a.ourScaleOnTheLeft == b.ourScaleOnTheLeft)
            && (k != 2 ==> a.theirSwitchOnTheLeft == b.theirSwitchOnTheLeft)
            && ((robotOnTheLeft, robotOnTheRight) == (otherLeft, otherRight) ==> a.position == b.position)
  {
  }
}
