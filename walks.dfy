/** Walking across the cube's surface: from a sticker, one step in a
    direction perpendicular to its face reaches the adjacent sticker, and
    the direction is re-expressed in the new sticker's frame. */
module Walks {
  import opened Wrappers
  import opened Signs
  import opened Autos
  import opened ArrowAlgebra
  import opened Stickers
  import opened Runs
  import opened Turns

  /** `Check(face, direction)`: the direction is a unit arrow perpendicular
      to the sticker's face. */
  predicate DirectionOk(s: CubieFace, d: Arrow) {
    IsUnit(d) && IsPerpendicular(s.face, d)
  }

  /** Adding a unit arrow to a cubie that does not already lie in that
      direction stays on the lattice. */
  lemma AddUnitFits(c: Arrow, d: Arrow)
    requires IsUnit(d) && Dot(c, d) <= 0
    ensures AddFits(c, d)
    ensures Dot(Add(c, d), d) == Dot(c, d) + 1
    ensures forall f :: IsUnit(f) && IsPerpendicular(f, d) ==> Dot(Add(c, d), f) == Dot(c, f)
  {
    UnitCases(d);
    forall f | IsUnit(f) && IsPerpendicular(f, d)
      ensures Dot(Add(c, d), f) == Dot(c, f)
    {
      UnitCases(f);
    }
  }

  /** A step that stays inside the face lands on the lattice, on a sticker
      that is valid when the old one was. */
  lemma StepInsideFace(s: CubieFace, d: Arrow)
    requires DirectionOk(s, d) && Dot(s.cubie, d) <= 0
    ensures AddFits(s.cubie, d)
    ensures Valid(s) ==> Valid(CubieFace(Add(s.cubie, d), s.face))
  {
    AddUnitFits(s.cubie, d);
  }

  /** The sticker one step away in direction `d`: past the edge of the cubie
      (`cubie . d > 0`) it is the same cubie's sticker facing `d`, otherwise
      the same face of the next cubie. `None` when a check throws. */
  function Neighbour(s: CubieFace, d: Arrow): (r: Option<CubieFace>)
    ensures !DirectionOk(s, d) ==> r.None?
    ensures Valid(s) && DirectionOk(s, d) ==> r.Some?
    ensures r.Some? ==> Valid(r.value)
  {
    if !DirectionOk(s, d) then None
    else if Dot(s.cubie, d) > 0 then MakeCubieFace(s.cubie, d)
    else
      StepInsideFace(s, d);
      MakeCubieFace(Add(s.cubie, d), s.face)
  }

  /** The direction to go on with from the neighbour: after turning the
      corner it points back against the old face, otherwise it is kept. */
  function ReOrient(s: CubieFace, d: Arrow): (r: Option<Arrow>)
    ensures r.Some? <==> DirectionOk(s, d)
    ensures Valid(s) && DirectionOk(s, d) ==> DirectionOk(Neighbour(s, d).value, r.value)
  {
    if !DirectionOk(s, d) then None
    else if Dot(s.cubie, d) > 0 then
      UnitCases(s.face);
      UnitCases(d);
      Some(Negate(s.face))
    else
      Some(d)
  }

  /** Quarter turns about a unit axis keep an arrow's component along the
      axis and its length, however many are applied. */
  lemma PowerKeepsDirection(axis: Arrow, d: Arrow, n: nat)
    requires IsUnit(axis)
    ensures Dot(Rotate(axis).Power(n).Morph(d), axis) == Dot(d, axis)
    ensures SquaredMagnitude(Rotate(axis).Power(n).Morph(d)) == SquaredMagnitude(d)
  {
    var r := Rotate(axis);
    var P := (v: Arrow) => Dot(v, axis) == Dot(d, axis) && SquaredMagnitude(v) == SquaredMagnitude(d);
    forall y | P(y) ensures P(r.Morph(y)) {
      RotateKeepsAxis(axis, y);
      RotatePreservesMagnitude(axis, y);
    }
    PowerPreserves(r, P, n, d);
  }

  /** Any multiple of four quarter turns gives back every arrow. */
  lemma PowerMultipleOfFour(axis: Arrow, d: Arrow, k: nat)
    requires IsUnit(axis)
    ensures Rotate(axis).Power(4 * k).Morph(d) == d
  {
    var r := Rotate(axis);
    forall y ensures r.Power(4).Morph(y) == y {
      RotatePowerFour(axis, y);
    }
    PowerPeriodic(r, 4, k, d);
  }

  /** `ReOrient(face, direction, turn)`: the direction turned `turn`
      quarter turns about the sticker's face. No turn keeps it, four turns
      give it back, and a direction along the surface stays one. */
  function ReOrientTurn(s: CubieFace, d: Arrow, turn: nat): (r: Arrow)
    requires IsUnit(s.face)
    ensures turn % 4 == 0 ==> r == d
    ensures DirectionOk(s, d) ==> DirectionOk(s, r)
  {
    PowerMultipleOfFour(s.face, d, turn / 4);
    PowerKeepsDirection(s.face, d, turn);
    UnitCases(d);
    UnitCases(Rotate(s.face).Power(turn).Morph(d));
    Rotate(s.face).Power(turn).Morph(d)
  }

  /** The state of a walk: where it stands and where it heads. */
  datatype Walker = Walker(sticker: CubieFace, direction: Arrow)

  predicate OnSurface(w: Walker) {
    Valid(w.sticker) && DirectionOk(w.sticker, w.direction)
  }

  /** One iteration of `Follow`: the neighbour, and the re-oriented
      direction turned by `turn` quarter turns about the neighbour's face. */
  function Step(w: Walker, turn: nat): (r: Option<Walker>)
    ensures OnSurface(w) ==> r.Some? && OnSurface(r.value)
    ensures !DirectionOk(w.sticker, w.direction) ==> r.None?
  {
    var n := Neighbour(w.sticker, w.direction);
    var next := ReOrient(w.sticker, w.direction);
    if n.None? || next.None? then None
    else Some(Walker(n.value, ReOrientTurn(n.value, next.value, turn)))
  }

  /** The walk of `Follow`: one step per element of `turns`. */
  function Walk(w: Walker, turns: seq<nat>): Option<Walker> {
    Run((v: Walker, t: nat) => Step(v, t), w, turns)
  }

  /** A walk that starts on the surface stays on it and never throws. */
  lemma {:induction false} WalkStaysOnSurface(w: Walker, turns: seq<nat>)
    requires OnSurface(w)
    ensures Walk(w, turns).Some? && OnSurface(Walk(w, turns).value)
    decreases turns
  {
    if turns != [] {
      WalkStaysOnSurface(Step(w, turns[0]).value, turns[1..]);
    }
  }

  /** Walking `a + b` is walking `a`, then `b`. */
  lemma WalkAppend(w: Walker, a: seq<nat>, b: seq<nat>)
    ensures Walk(w, a + b) == match Walk(w, a) case None => None case Some(v) => Walk(v, b)
  {
    RunAppend((v: Walker, t: nat) => Step(v, t), w, a, b);
  }

  /** The sticker a walk ends on. */
  function EndSticker(o: Option<Walker>): Option<CubieFace> {
    match o
    case None => None
    case Some(w) => Some(w.sticker)
  }

  /** A step with no extra turn, past the cubie's edge: same cubie, new
      face `d`, heading against the old face. */
  lemma StepCorner(w: Walker)
    requires OnSurface(w) && Dot(w.sticker.cubie, w.direction) > 0
    ensures Step(w, 0) == Some(Walker(CubieFace(w.sticker.cubie, w.direction), Negate(w.sticker.face)))
  {
  }

  /** A step with no extra turn, inside the face: next cubie in direction
      `d`, same face, same heading. */
  lemma StepAlong(w: Walker)
    requires OnSurface(w) && Dot(w.sticker.cubie, w.direction) <= 0
    ensures AddFits(w.sticker.cubie, w.direction)
    ensures Step(w, 0) == Some(Walker(CubieFace(Add(w.sticker.cubie, w.direction), w.sticker.face), w.direction))
  {
    AddUnitFits(w.sticker.cubie, w.direction);
  }

  /** The walker turned a quarter turn about `axis`, by the table. */
  function TurnedWalker(axis: Arrow, w: Walker): Walker {
    Walker(CubieFace(QuarterTurn(axis, w.sticker.cubie), QuarterTurn(axis, w.sticker.face)),
           QuarterTurn(axis, w.direction))
  }

  /** Two perpendicular unit arrows, written with their non-zero
      components in place: six cases up to signs. */
  lemma FrameForm(f: Arrow, d: Arrow)
    requires IsUnit(f) && IsUnit(d) && IsPerpendicular(f, d)
    ensures || (f == Arrow(f.x, Zero, Zero) && d == Arrow(Zero, d.y, Zero))
            || (f == Arrow(f.x, Zero, Zero) && d == Arrow(Zero, Zero, d.z))
            || (f == Arrow(Zero, f.y, Zero) && d == Arrow(d.x, Zero, Zero))
            || (f == Arrow(Zero, f.y, Zero) && d == Arrow(Zero, Zero, d.z))
            || (f == Arrow(Zero, Zero, f.z) && d == Arrow(d.x, Zero, Zero))
            || (f == Arrow(Zero, Zero, f.z) && d == Arrow(Zero, d.y, Zero))
    ensures NonZeroCount(f) == 1 && NonZeroCount(d) == 1
  {
    UnitCases(f);
    UnitCases(d);
  }

  /** The quarter turn about `f x d` takes `f` to `d` and `d` to `-f`, and
      moves a cubie on face `f` as three steps of the walk do. */
  lemma QuarterFrame(f: Arrow, d: Arrow)
    requires IsUnit(f) && IsUnit(d) && IsPerpendicular(f, d)
    ensures CrossFits(f, d) && IsUnit(Cross(f, d))
    ensures QuarterTurn(Cross(f, d), f) == d
    ensures QuarterTurn(Cross(f, d), d) == Negate(f)
    ensures Cross(d, Negate(f)) == Cross(f, d)
  {
    FrameForm(f, d);
  }

  /** Three steps of the walk move a cubie on face `f` the way the quarter
      turn about `f x d` does; one lemma per starting offset `cubie . d`. */
  lemma QuarterCubieAtEdge(f: Arrow, d: Arrow, c: Arrow)
    requires IsUnit(f) && IsUnit(d) && IsPerpendicular(f, d) && Dot(c, f) == 1 && Dot(c, d) == 1
    ensures CrossFits(f, d) && AddFits(c, Negate(f)) && AddFits(Add(c, Negate(f)), Negate(f))
    ensures QuarterTurn(Cross(f, d), c) == Add(Add(c, Negate(f)), Negate(f))
  {
    FrameForm(f, d);
  }

  lemma QuarterCubieAtMiddle(f: Arrow, d: Arrow, c: Arrow)
    requires IsUnit(f) && IsUnit(d) && IsPerpendicular(f, d) && Dot(c, f) == 1 && Dot(c, d) == 0
    ensures CrossFits(f, d) && AddFits(c, d) && AddFits(Add(c, d), Negate(f))
    ensures QuarterTurn(Cross(f, d), c) == Add(Add(c, d), Negate(f))
  {
    FrameForm(f, d);
  }

  lemma QuarterCubieAtBack(f: Arrow, d: Arrow, c: Arrow)
    requires IsUnit(f) && IsUnit(d) && IsPerpendicular(f, d) && Dot(c, f) == 1 && Dot(c, d) == -1
    ensures CrossFits(f, d) && AddFits(c, d) && AddFits(Add(c, d), d)
    ensures QuarterTurn(Cross(f, d), c) == Add(Add(c, d), d)
  {
    FrameForm(f, d);
  }

  /** Three steps without extra turns, spelled out. */
  lemma WalkThree(w0: Walker, w1: Walker, w2: Walker, w3: Walker)
    requires Step(w0, 0) == Some(w1) && Step(w1, 0) == Some(w2) && Step(w2, 0) == Some(w3)
    ensures Walk(w0, [0, 0, 0]) == Some(w3)
  {
    var zeros: seq<nat> := [0, 0, 0];
    assert zeros[1..] == [0, 0] && zeros[1..][1..] == [0] && zeros[1..][1..][1..] == [];
    assert Walk(w0, zeros) == Walk(w1, [0, 0]);
    assert Walk(w1, [0, 0]) == Walk(w2, [0]);
    assert Walk(w2, [0]) == Walk(w3, []);
  }

  /** Three steps of the walk from a sticker on the outer surface turn the
      whole walker a quarter turn about `face x direction`: one edge of the
      cube crossed, one face further round the loop. */
  lemma QuarterWalk(w: Walker)
    requires OnSurface(w) && Dot(w.sticker.cubie, w.sticker.face) == 1
    ensures CrossFits(w.sticker.face, w.direction)
    ensures Walk(w, [0, 0, 0]) == Some(TurnedWalker(Cross(w.sticker.face, w.direction), w))
  {
    var c, f, d := w.sticker.cubie, w.sticker.face, w.direction;
    QuarterFrame(f, d);
    var nf := Negate(f);
    DotNegate(c, f);
    var k := Dot(c, d);
    if k == 1 {
      StepCorner(w);
      var w1 := Walker(CubieFace(c, d), nf);
      StepAlong(w1);
      var c2 := Add(c, nf);
      var w2 := Walker(CubieFace(c2, d), nf);
      AddUnitFits(c, nf);
      StepAlong(w2);
      var w3 := Walker(CubieFace(Add(c2, nf), d), nf);
      QuarterCubieAtEdge(f, d, c);
      WalkThree(w, w1, w2, w3);
    } else if k == 0 {
      StepAlong(w);
      var c1 := Add(c, d);
      var w1 := Walker(CubieFace(c1, f), d);
      AddUnitFits(c, d);
      StepCorner(w1);
      var w2 := Walker(CubieFace(c1, d), nf);
      DotNegate(c1, f);
      StepAlong(w2);
      var w3 := Walker(CubieFace(Add(c1, nf), d), nf);
      QuarterCubieAtMiddle(f, d, c);
      WalkThree(w, w1, w2, w3);
    } else {
      StepAlong(w);
      var c1 := Add(c, d);
      var w1 := Walker(CubieFace(c1, f), d);
      AddUnitFits(c, d);
      StepAlong(w1);
      var c2 := Add(c1, d);
      var w2 := Walker(CubieFace(c2, f), d);
      AddUnitFits(c1, d);
      StepCorner(w2);
      var w3 := Walker(CubieFace(c2, d), nf);
      QuarterCubieAtBack(f, d, c);
      WalkThree(w, w1, w2, w3);
    }
  }

  /** A quarter turn keeps a walker on the surface and keeps its cubie's
      offset along its face. */
  lemma TurnedWalkerOnSurface(axis: Arrow, w: Walker)
    requires IsUnit(axis) && OnSurface(w)
    ensures OnSurface(TurnedWalker(axis, w))
    ensures Dot(TurnedWalker(axis, w).sticker.cubie, TurnedWalker(axis, w).sticker.face)
         == Dot(w.sticker.cubie, w.sticker.face)
  {
    TurnedValid(axis, w.sticker);
    var r := Rotate(axis);
    RotatePreservesDot(axis, w.sticker.face, w.direction);
    RotatePreservesMagnitude(axis, w.direction);
    assert r.Morph(w.direction) == QuarterTurn(axis, w.direction);
    assert r.Morph(w.sticker.face) == QuarterTurn(axis, w.sticker.face);
  }

  /** After a quarter of the loop the walker is again on the outer surface,
      and it turns about the same axis as before. */
  lemma QuarterKeepsAxis(w: Walker)
    requires OnSurface(w) && Dot(w.sticker.cubie, w.sticker.face) == 1
    ensures CrossFits(w.sticker.face, w.direction)
    ensures var w' := TurnedWalker(Cross(w.sticker.face, w.direction), w);
      && OnSurface(w') && Dot(w'.sticker.cubie, w'.sticker.face) == 1
      && CrossFits(w'.sticker.face, w'.direction)
      && Cross(w'.sticker.face, w'.direction) == Cross(w.sticker.face, w.direction)
  {
    var f, d := w.sticker.face, w.direction;
    QuarterFrame(f, d);
    TurnedWalkerOnSurface(Cross(f, d), w);
  }

  /** The twelve zero turns of `Loop`. */
  const LoopTurns: seq<nat> := [0, 0, 0, 0, 0, 0, 0, 0, 0, 0, 0, 0]

  lemma LoopTurnsAreZero()
    ensures |LoopTurns| == 12
    ensures forall k :: 0 <= k < 12 ==> LoopTurns[k] == 0
  {
  }

  /** The twelve steps of the loop are four quarters of three. */
  lemma LoopTurnsQuarters(q: seq<nat>)
    requires q == [0, 0, 0]
    ensures LoopTurns == q + q + q + q
  {
  }

  /** A quarter of the loop, for a sequence of three zero turns. */
  lemma QuarterOfLoop(w: Walker, q: seq<nat>)
    requires OnSurface(w) && Dot(w.sticker.cubie, w.sticker.face) == 1 && q == [0, 0, 0]
    ensures CrossFits(w.sticker.face, w.direction)
    ensures Walk(w, q) == Some(TurnedWalker(Cross(w.sticker.face, w.direction), w))
  {
    QuarterWalk(w);
  }

  /** The loop as four quarters: the walker turns four times about the same
      axis, which brings it back. */
  lemma LoopClosesOn(w: Walker, q: seq<nat>)
    requires OnSurface(w) && Dot(w.sticker.cubie, w.sticker.face) == 1 && q == [0, 0, 0]
    ensures Walk(w, q + q + q + q) == Some(w)
  {
    var f, d := w.sticker.face, w.direction;
    QuarterFrame(f, d);
    var a := Cross(f, d);
    var w1 := TurnedWalker(a, w);
    QuarterKeepsAxis(w);
    var w2 := TurnedWalker(a, w1);
    QuarterKeepsAxis(w1);
    var w3 := TurnedWalker(a, w2);
    QuarterKeepsAxis(w2);
    QuarterOfLoop(w, q);
    QuarterOfLoop(w1, q);
    QuarterOfLoop(w2, q);
    QuarterOfLoop(w3, q);
    QuarterTurnFour(a, w.sticker.cubie);
    QuarterTurnFour(a, f);
    QuarterTurnFour(a, d);
    assert TurnedWalker(a, w3) == w;
    LoopOfQuarters(w, w1, w2, w3, w, q);
  }

  /** Closure of the surface walk: from every sticker on the outside of the
      cube, in each of the four directions along its face, twelve steps
      lead back to the same sticker heading the same way. */
  lemma LoopCloses(w: Walker)
    requires OnSurface(w) && Dot(w.sticker.cubie, w.sticker.face) == 1
    ensures Walk(w, LoopTurns) == Some(w)
  {
    var q: seq<nat> := [0, 0, 0];
    LoopClosesOn(w, q);
    LoopTurnsQuarters(q);
  }

  /** The loop closes only from the outside of the cube. The sticker on
      cubie -X with face +X is valid (its cubie lies along its face's axis)
      but faces into the cube; twelve steps from it heading +Y end on
      cubie (+1, +1, 0) facing +Y. */
  lemma LoopNeedsOuterSticker()
    ensures var w := Walker(CubieFace(Arrow(Negative, Zero, Zero), Arrow(Positive, Zero, Zero)), Arrow(Zero, Positive, Zero));
      && OnSurface(w) && Dot(w.sticker.cubie, w.sticker.face) == -1
      && Walk(w, LoopTurns) == Some(Walker(CubieFace(Arrow(Positive, Positive, Zero), Arrow(Zero, Positive, Zero)), Arrow(Negative, Zero, Zero)))
  {
    var n, z, p := Negative, Zero, Positive;
    var x, y := Arrow(p, z, z), Arrow(z, p, z);
    var w0 := Walker(CubieFace(Arrow(n, z, z), x), y);
    var w1 := Walker(CubieFace(Arrow(n, p, z), x), y);
    var w2 := Walker(CubieFace(Arrow(n, p, z), y), Negate(x));
    var w3 := Walker(CubieFace(Arrow(n, p, z), Negate(x)), Negate(y));
    StepAlong(w0);
    assert Add(Arrow(n, z, z), y) == Arrow(n, p, z);
    StepCorner(w1);
    StepCorner(w2);
    WalkThree(w0, w1, w2, w3);
    var q: seq<nat> := [0, 0, 0];
    QuarterFrame(Negate(x), Negate(y));
    var a := Cross(Negate(x), Negate(y));
    assert a == Arrow(z, z, p);
    var w6 := TurnedWalker(a, w3);
    QuarterOfLoop(w3, q);
    QuarterKeepsAxis(w3);
    var w9 := TurnedWalker(a, w6);
    QuarterOfLoop(w6, q);
    QuarterKeepsAxis(w6);
    var w12 := TurnedWalker(a, w9);
    QuarterOfLoop(w9, q);
    LoopOfQuarters(w0, w3, w6, w9, w12, q);
    LoopTurnsQuarters(q);
  }

  /** Four quarters of three steps each make the loop. */
  lemma LoopOfQuarters(w0: Walker, w1: Walker, w2: Walker, w3: Walker, w4: Walker, q: seq<nat>)
    requires Walk(w0, q) == Some(w1) && Walk(w1, q) == Some(w2)
    requires Walk(w2, q) == Some(w3) && Walk(w3, q) == Some(w4)
    ensures Walk(w0, q + q + q + q) == Some(w4)
  {
    RunFour((v: Walker, t: nat) => Step(v, t), w0, w1, w2, w3, w4, q);
  }

  /** `Follow`: walks one step per element of `turns`, re-orienting and
      then turning the direction at each step; `None` when a step throws.
      It ends where the walk ends, and a walk that starts on the surface
      always ends on a valid sticker. */
  method Follow(face: CubieFace, direction: Arrow, turns: seq<nat>) returns (r: Option<CubieFace>)
    ensures r == EndSticker(Walk(Walker(face, direction), turns))
    ensures OnSurface(Walker(face, direction)) ==> r.Some? && Valid(r.value)
  {
    ghost var start := Walker(face, direction);
    var current, heading := face, direction;
    if OnSurface(start) {
      WalkStaysOnSurface(start, turns);
    }
    for i := 0 to |turns|
      invariant Walk(start, turns) == Walk(Walker(current, heading), turns[i..])
    {
      var neighbour := Neighbour(current, heading);
      var next := ReOrient(current, heading);
      assert turns[i..][0] == turns[i] && turns[i..][1..] == turns[i + 1..];
      if neighbour.None? || next.None? {
        return None;
      }
      var turned := ReOrientTurn(neighbour.value, next.value, turns[i]);
      current, heading := neighbour.value, turned;
    }
    assert turns[|turns|..] == [];
    r := Some(current);
  }

  /** `Loop`: twelve steps without extra turns. From every sticker on the
      outside of the cube, in every direction along its face, it comes back
      to the sticker it started from. */
  method Loop(face: CubieFace, direction: Arrow) returns (r: Option<CubieFace>)
    ensures r == EndSticker(Walk(Walker(face, direction), LoopTurns))
    ensures OnSurface(Walker(face, direction)) && Dot(face.cubie, face.face) == 1 ==> r == Some(face)
  {
    r := Follow(face, direction, LoopTurns);
    if OnSurface(Walker(face, direction)) && Dot(face.cubie, face.face) == 1 {
      LoopCloses(Walker(face, direction));
    }
  }

}
