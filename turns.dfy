/** Cube states and face turns: the initial colouring, the turn of one
    layer of stickers, and the turn of a whole cube state by pull-back. */
module Turns {
  import opened Wrappers
  import opened Signs
  import opened Autos
  import opened ArrowAlgebra
  import opened Stickers

  /** A cube state: the colour of each sticker. `None` is a lookup that
      throws; states are immutable values that a turn supersedes. */
  datatype RubikCube = RubikCube(getF: CubieFace -> Option<Color>) {
    function At(s: CubieFace): Option<Color> {
      getF(s)
    }
  }

  /** The colour bound to each face direction; `None` (it throws) for the
      zero arrow. */
  function InitialColor(face: Arrow): (r: Option<Color>)
    ensures r.None? <==> face == Origin
    ensures face == Arrow(Zero, Zero, Negative) ==> r == Some(Green)
    ensures face == Arrow(Zero, Zero, Positive) ==> r == Some(Blue)
    ensures face == Arrow(Negative, Zero, Zero) ==> r == Some(Orange)
    ensures face == Arrow(Positive, Zero, Zero) ==> r == Some(Red)
    ensures face == Arrow(Zero, Negative, Zero) ==> r == Some(Yellow)
    ensures face == Arrow(Zero, Positive, Zero) ==> r == Some(White)
  {
    if face.z == Negative then Some(Green)
    else if face.z == Positive then Some(Blue)
    else if face.x == Negative then Some(Orange)
    else if face.x == Positive then Some(Red)
    else if face.y == Negative then Some(Yellow)
    else if face.y == Positive then Some(White)
    else
      assert face.x == Zero && face.y == Zero && face.z == Zero;
      None
  }

  /** The six faces get six different colours, and every colour is used. */
  lemma InitialColorBijective(a: Arrow, b: Arrow, c: Color)
    requires IsUnit(a) && IsUnit(b)
    ensures InitialColor(a) == InitialColor(b) ==> a == b
    ensures exists u :: u in UnitArrows && InitialColor(u) == Some(c)
  {
    UnitCases(a);
    UnitCases(b);
    var u := match c
      case Green => UnitArrows[5]
      case Blue => UnitArrows[4]
      case Orange => UnitArrows[1]
      case Red => UnitArrows[0]
      case Yellow => UnitArrows[3]
      case White => UnitArrows[2];
    assert InitialColor(u) == Some(c);
  }

  /** The solved cube: each sticker shows the colour of its face. Every
      valid sticker has a colour, and the colour depends on the face only. */
  function InitialCube(): (c: RubikCube)
    ensures forall s :: Valid(s) ==> c.At(s).Some?
    ensures forall s: CubieFace, t: CubieFace :: s.face == t.face ==> c.At(s) == c.At(t)
  {
    RubikCube((s: CubieFace) => InitialColor(s.face))
  }

  /** The inverse of a turn, as the sequence of turns to apply: three more
      turns about the same axis. */
  function Inverse(axis: Arrow): (r: seq<Arrow>)
    ensures |r| == 3 && forall i :: 0 <= i < |r| ==> r[i] == axis
  {
    [axis, axis, axis]
  }

  /** The sticker a quarter turn about `axis` sends `s` to, by the table of
      quarter turns. */
  function Turned(axis: Arrow, s: CubieFace): CubieFace {
    CubieFace(QuarterTurn(axis, s.cubie), QuarterTurn(axis, s.face))
  }

  /** A quarter turn sends a valid sticker to a valid sticker, keeping the
      cubie's components along the sticker's face and along the axis. */
  lemma TurnedValid(axis: Arrow, s: CubieFace)
    requires IsUnit(axis) && Valid(s)
    ensures Valid(Turned(axis, s))
    ensures Dot(Turned(axis, s).cubie, Turned(axis, s).face) == Dot(s.cubie, s.face)
    ensures Dot(Turned(axis, s).cubie, axis) == Dot(s.cubie, axis)
  {
    var rotation := Rotate(axis);
    var t := Turned(axis, s);
    assert t.cubie == rotation.Morph(s.cubie) && t.face == rotation.Morph(s.face);
    RotatePreservesDot(axis, s.cubie, s.face);
    RotatePreservesMagnitude(axis, s.cubie);
    RotatePreservesMagnitude(axis, s.face);
    assert Dot(t.cubie, t.face) == Dot(s.cubie, s.face);
    assert IsUnit(t.face);
    assert IsNonZero(t.cubie);
  }

  /** `turn.Turn()` applied to one sticker: stickers outside the layer
      `cubie . axis > 0` stay put; the others are turned, cubie and face
      alike, and rebuilt through the checking constructor. */
  function Turn(turn: FaceTurn, s: CubieFace): (r: Option<CubieFace>)
    requires IsUnit(turn.axis)
    ensures Dot(s.cubie, turn.axis) <= 0 ==> r == Some(s)
    ensures Dot(s.cubie, turn.axis) > 0 && r.Some? ==> r.value == Turned(turn.axis, s)
    ensures Valid(s) ==> r.Some? && Valid(r.value)
    ensures Valid(s) ==> Dot(r.value.cubie, r.value.face) == Dot(s.cubie, s.face)
    ensures Valid(s) ==> Dot(r.value.cubie, turn.axis) == Dot(s.cubie, turn.axis)
  {
    var rotation := Rotate(turn.axis);
    if Dot(s.cubie, turn.axis) > 0 then
      var t := CubieFace(rotation.Morph(s.cubie), rotation.Morph(s.face));
      assert t == Turned(turn.axis, s);
      if Valid(s) then
        TurnedValid(turn.axis, s);
        MakeCubieFace(t.cubie, t.face)
      else
        MakeCubieFace(t.cubie, t.face)
    else
      Some(s)
  }

  /** `turn.TurnCube()`: the new state's colour at `s` is the old colour at
      the sticker `s` turns to (a pull-back; the new state throws where the
      turn of `s` throws). */
  function TurnCube(turn: FaceTurn): (r: Auto<RubikCube>)
    requires IsUnit(turn.axis)
    ensures forall c: RubikCube, s: CubieFace :: Dot(s.cubie, turn.axis) <= 0 ==> r.Morph(c).At(s) == c.At(s)
    ensures forall c: RubikCube, s: CubieFace :: Valid(s) && Dot(s.cubie, turn.axis) > 0 ==>
      r.Morph(c).At(s) == c.At(Turned(turn.axis, s))
  {
    Auto((cube: RubikCube) => RubikCube((s: CubieFace) => match Turn(turn, s)
                                case None => None
                                case Some(t) => cube.At(t)))
  }

  /** Four turns about the same axis send every valid sticker back to itself. */
  lemma TurnFourTimes(turn: FaceTurn, s: CubieFace)
    requires IsUnit(turn.axis) && Valid(s)
    ensures Turn(turn, Turn(turn, Turn(turn, Turn(turn, s).value).value).value).value == s
  {
    if Dot(s.cubie, turn.axis) > 0 {
      QuarterTurnFour(turn.axis, s.cubie);
      QuarterTurnFour(turn.axis, s.face);
    }
  }

  /** A turn permutes the valid stickers: two stickers that turn to the same
      sticker are the same. */
  lemma TurnInjective(turn: FaceTurn, s: CubieFace, t: CubieFace)
    requires IsUnit(turn.axis) && Valid(s) && Valid(t)
    ensures Turn(turn, s) == Turn(turn, t) ==> s == t
  {
    TurnFourTimes(turn, s);
    TurnFourTimes(turn, t);
  }

  /** The pull-back law at a valid sticker. */
  lemma TurnCubeAt(turn: FaceTurn, c: RubikCube, s: CubieFace)
    requires IsUnit(turn.axis) && Valid(s)
    ensures TurnCube(turn).Morph(c).At(s) == c.At(Turn(turn, s).value)
  {
  }

  /** A turned state shows, at every valid sticker, a colour the old state
      showed at some valid sticker: turns move colours, they never make new
      ones. */
  lemma TurnCubeMovesColours(turn: FaceTurn, c: RubikCube, s: CubieFace)
    requires IsUnit(turn.axis) && Valid(s)
    ensures exists t :: Valid(t) && TurnCube(turn).Morph(c).At(s) == c.At(t)
  {
    TurnCubeAt(turn, c, s);
    var t := Turn(turn, s).value;
    assert Valid(t) && TurnCube(turn).Morph(c).At(s) == c.At(t);
  }

  /** Four turns about the same axis restore the colour of every valid
      sticker. */
  lemma FourTurnsRestore(turn: FaceTurn, c: RubikCube, s: CubieFace)
    requires IsUnit(turn.axis) && Valid(s)
    ensures TurnCube(turn).Power(4).Morph(c).At(s) == c.At(s)
  {
    var m := TurnCube(turn);
    var s1 := Turn(turn, s).value;
    var s2 := Turn(turn, s1).value;
    var s3 := Turn(turn, s2).value;
    TurnFourTimes(turn, s);
    var c1 := m.Morph(c);
    var c2 := m.Morph(c1);
    var c3 := m.Morph(c2);
    PowerFour(m, c);
    TurnCubeAt(turn, c3, s);
    TurnCubeAt(turn, c2, s1);
    TurnCubeAt(turn, c1, s2);
    TurnCubeAt(turn, c, s3);
  }

  /** The state after turning about each axis of `axes` in order. */
  function ApplyTurns(c: RubikCube, axes: seq<Arrow>): RubikCube
    requires forall i :: 0 <= i < |axes| ==> IsUnit(axes[i])
    decreases axes
  {
    if axes == [] then c else ApplyTurns(TurnCube(FaceTurn(axes[0])).Morph(c), axes[1..])
  }

  /** Turning through three copies of an axis is three turns in a row. */
  lemma ApplyThreeTurns(axis: Arrow, c: RubikCube)
    requires IsUnit(axis)
    ensures ApplyTurns(c, [axis, axis, axis])
         == TurnCube(FaceTurn(axis)).Morph(TurnCube(FaceTurn(axis)).Morph(TurnCube(FaceTurn(axis)).Morph(c)))
  {
    var m := TurnCube(FaceTurn(axis));
    assert [axis, axis, axis][1..] == [axis, axis];
    assert [axis, axis][1..] == [axis];
    assert [axis][1..] == [];
    var c1 := m.Morph(c);
    var c2 := m.Morph(c1);
    var c3 := m.Morph(c2);
    assert ApplyTurns(c, [axis, axis, axis]) == ApplyTurns(c1, [axis, axis]);
    assert ApplyTurns(c1, [axis, axis]) == ApplyTurns(c2, [axis]);
    assert ApplyTurns(c2, [axis]) == ApplyTurns(c3, []);
  }

  /** Turning about an axis and then through `Inverse(axis)` restores the
      colour of every valid sticker. */
  lemma InverseUndoesTurn(axis: Arrow, c: RubikCube, s: CubieFace)
    requires IsUnit(axis) && Valid(s)
    ensures ApplyTurns(TurnCube(FaceTurn(axis)).Morph(c), Inverse(axis)).At(s) == c.At(s)
  {
    var m := TurnCube(FaceTurn(axis));
    ApplyThreeTurns(axis, m.Morph(c));
    PowerFour(m, c);
    FourTurnsRestore(FaceTurn(axis), c, s);
  }

  /** The corner sticker (+,+,+) on the +Z face, turned about +Z, goes to
      the sticker on cubie (-,+,+) of the same face; on the solved cube it
      is blue. */
  lemma TurnCornerExample()
    ensures Turn(FaceTurn(Arrow(Zero, Zero, Positive)), CubieFace(Arrow(Positive, Positive, Positive), Arrow(Zero, Zero, Positive)))
         == Some(CubieFace(Arrow(Negative, Positive, Positive), Arrow(Zero, Zero, Positive)))
    ensures InitialCube().At(CubieFace(Arrow(Positive, Positive, Positive), Arrow(Zero, Zero, Positive))) == Some(Blue)
  {
    var z := Arrow(Zero, Zero, Positive);
    var s := CubieFace(Arrow(Positive, Positive, Positive), z);
    assert Valid(s);
    assert Dot(s.cubie, z) > 0;
    assert Turned(z, s) == CubieFace(Arrow(Negative, Positive, Positive), z);
  }

}
