/** The checks the program runs over the whole lattice before and instead of
    drawing (`Main`, `Main2`, `FollowDirections`), stated once for every
    input they range over. */
module MainChecks {
  import opened Wrappers
  import opened Signs
  import opened Axes
  import opened Autos
  import opened ArrowAlgebra
  import opened Stickers
  import opened Walks
  import opened Enumerations

  /** The number of the given axes along which an arrow is non-zero,
      counted from the last axis back. */
  function NonZeroAlong(arrow: Arrow, axes: seq<Axis>): nat {
    if axes == [] then 0
    else NonZeroAlong(arrow, axes[..|axes| - 1]) + (if Get(arrow, axes[|axes| - 1]) != Zero then 1 else 0)
  }

  /** The first loop of `Main`: for one arrow, count the axes along which it
      is non-zero. The count is the arrow's squared length. */
  method CountNonZeroAxes(arrow: Arrow) returns (count: nat)
    ensures count == SquaredMagnitude(arrow)
    ensures count <= 3
  {
    count := 0;
    for i := 0 to |AxisValues|
      invariant count == NonZeroAlong(arrow, AxisValues[..i])
    {
      assert AxisValues[..i + 1][..i] == AxisValues[..i];
      if Get(arrow, AxisValues[i]) != Zero {
        count := count + 1;
      }
    }
    assert AxisValues[..3] == AxisValues;
  }

  /** The first check of `Main2`: every sticker on the outside of the cube
      (a cubie of the enumeration, a basis face it shows with `cubie . face
      == 1`) is accepted by the sticker constructor, and `Loop` in every basis
      direction along the face brings it back. */
  lemma EveryLoopCloses(cubie: Arrow, face: Arrow, direction: Arrow)
    requires face in Basis() && Dot(cubie, face) == 1
    requires direction in Basis() && Dot(face, direction) == 0
    ensures MakeCubieFace(cubie, face) == Some(CubieFace(cubie, face))
    ensures Walk(Walker(CubieFace(cubie, face), direction), LoopTurns) == Some(Walker(CubieFace(cubie, face), direction))
  {
    BasisIsUnits(face);
    BasisIsUnits(direction);
    UnitCases(face);
    LoopCloses(Walker(CubieFace(cubie, face), direction));
  }

  lemma UnitKeepsMagnitude(first: Arrow, second: Arrow)
    requires IsUnit(second)
    ensures SquaredMagnitude(Rotate(second).Morph(first)) == SquaredMagnitude(first) * SquaredMagnitude(second)
  {
    assert SquaredMagnitude(second) == 1;
    RotatePreservesMagnitude(second, first);
  }

  /** The second check of `Main2`: turning an arrow about a basis axis
      multiplies its length by the axis's length, which is one. */
  lemma RotationKeepsMagnitude(first: Arrow, second: Arrow)
    requires second in Basis()
    ensures IsUnit(second) && SquaredMagnitude(second) == 1
    ensures SquaredMagnitude(Rotate(second).Morph(first)) == SquaredMagnitude(first) * SquaredMagnitude(second)
  {
    BasisIsUnits(second);
    UnitKeepsMagnitude(first, second);
  }

  /** The third check of `Main2`: four quarter turns about a basis axis
      give back every arrow. */
  lemma FourRotationsAreIdentity(face: Arrow, cubie: Arrow)
    requires face in Basis()
    ensures IsUnit(face) && Rotate(face).Power(4).Morph(cubie) == cubie
  {
    BasisIsUnits(face);
    RotatePowerFour(face, cubie);
  }

  /** The number of the given faces a cubie shows (`cubie . face == 1`). */
  function FacesShown(cubie: Arrow, faces: seq<Arrow>): nat {
    if faces == [] then 0
    else FacesShown(cubie, faces[..|faces| - 1]) + (if Dot(cubie, faces[|faces| - 1]) == 1 then 1 else 0)
  }

  /** The number of visible stickers on the given cubies: pairs of a cubie
      and one of the given faces it shows. */
  function Visible(cubies: seq<Arrow>, faces: seq<Arrow>): nat {
    if cubies == [] then 0
    else Visible(cubies[..|cubies| - 1], faces) + FacesShown(cubies[|cubies| - 1], faces)
  }

  /** Of the basis, a cubie shows one face per non-zero component. The
      faces are a parameter pinned by the precondition, not the constant
      itself, so that the solver does not unfold the constant eagerly; the
      same holds for the lemmas below. */
  lemma FacesShownCount(cubie: Arrow, faces: seq<Arrow>)
    requires faces == BasisInOrder
    ensures FacesShown(cubie, faces) == NonZeroCount(cubie)
  {
    var f5, f4, f3, f2, f1 := faces[..5], faces[..4], faces[..3], faces[..2], faces[..1];
    assert f5[..4] == f4 && f4[..3] == f3 && f3[..2] == f2 && f2[..1] == f1 && f1[..0] == [];
    assert FacesShown(cubie, f1) == (if cubie.z == Positive then 1 else 0);
    assert FacesShown(cubie, f2) == FacesShown(cubie, f1) + (if cubie.z == Negative then 1 else 0);
    assert FacesShown(cubie, f3) == FacesShown(cubie, f2) + (if cubie.y == Positive then 1 else 0);
    assert FacesShown(cubie, f4) == FacesShown(cubie, f3) + (if cubie.y == Negative then 1 else 0);
    assert FacesShown(cubie, f5) == FacesShown(cubie, f4) + (if cubie.x == Positive then 1 else 0);
    assert FacesShown(cubie, faces) == FacesShown(cubie, f5) + (if cubie.x == Negative then 1 else 0);
  }

  lemma {:induction false} VisibleAppend(s: seq<Arrow>, t: seq<Arrow>, faces: seq<Arrow>)
    ensures Visible(s + t, faces) == Visible(s, faces) + Visible(t, faces)
    decreases |t|
  {
    if t == [] {
      assert s + t == s;
    } else {
      var u := t[..|t| - 1];
      assert (s + t)[..|s + t| - 1] == s + u;
      VisibleAppend(s, u, faces);
    }
  }

  /** A row of cubies shows three faces per non-zero coordinate it fixes,
      plus the two ends along z. */
  lemma VisibleRow(x: Sign, y: Sign, faces: seq<Arrow>)
    requires faces == BasisInOrder
    ensures Visible(Row(x, y), faces) == 3 * NonZeroCount(Arrow(x, y, Zero)) + 2
  {
    var r := Row(x, y);
    var r2, r1 := r[..2], r[..1];
    assert r2[..1] == r1 && r1[..0] == [] && r2[1] == r[1] && r1[0] == r[0];
    FacesShownCount(r[0], faces);
    FacesShownCount(r[1], faces);
    FacesShownCount(r[2], faces);
    assert Visible(r1, faces) == NonZeroCount(r[0]);
    assert Visible(r2, faces) == Visible(r1, faces) + NonZeroCount(r[1]);
    assert Visible(r, faces) == Visible(r2, faces) + NonZeroCount(r[2]);
  }

  lemma VisiblePlane(x: Sign, faces: seq<Arrow>)
    requires faces == BasisInOrder
    ensures Visible(Plane(x), faces) == 9 * NonZeroCount(Arrow(x, Zero, Zero)) + 12
  {
    var a, b, c := Row(x, Zero), Row(x, Positive), Row(x, Negative);
    VisibleAppend(a + b, c, faces);
    VisibleAppend(a, b, faces);
    VisibleRow(x, Zero, faces);
    VisibleRow(x, Positive, faces);
    VisibleRow(x, Negative, faces);
  }

  lemma VisibleOfPlanes(z: Sign, p: Sign, n: Sign, faces: seq<Arrow>)
    requires z == Zero && p == Positive && n == Negative && faces == BasisInOrder
    ensures Visible(Plane(z) + Plane(p) + Plane(n), faces) == 54
  {
    VisibleAppend(Plane(z) + Plane(p), Plane(n), faces);
    VisibleAppend(Plane(z), Plane(p), faces);
    VisiblePlane(z, faces);
    VisiblePlane(p, faces);
    VisiblePlane(n, faces);
  }

  /** The cube shows 54 stickers: nine on each of six faces. */
  lemma VisibleStickers(faces: seq<Arrow>)
    requires faces == Basis()
    ensures Visible(AllArrows(), faces) == 54
  {
    BasisValue();
    var z, p, n := Zero, Positive, Negative;
    VisibleOfPlanes(z, p, n, faces);
    assert AllArrows() == Plane(z) + Plane(p) + Plane(n);
  }

  lemma FacesShownSnoc(cubie: Arrow, faces: seq<Arrow>, j: nat)
    requires j < |faces|
    ensures FacesShown(cubie, faces[..j + 1]) == FacesShown(cubie, faces[..j]) + (if Dot(cubie, faces[j]) == 1 then 1 else 0)
  {
    assert faces[..j + 1][..j] == faces[..j];
  }

  lemma VisibleSnoc(cubies: seq<Arrow>, faces: seq<Arrow>, i: nat)
    requires i < |cubies|
    ensures Visible(cubies[..i + 1], faces) == Visible(cubies[..i], faces) + FacesShown(cubies[i], faces)
  {
    assert cubies[..i + 1][..i] == cubies[..i];
  }

  /** The nested loops of the fourth check of `Main2`: for each cubie, for
      each face, count one when the cubie shows the face. */
  method CountVisible(cubies: seq<Arrow>, faces: seq<Arrow>) returns (count: nat)
    ensures count == Visible(cubies, faces)
  {
    count := 0;
    for i := 0 to |cubies|
      invariant count == Visible(cubies[..i], faces)
    {
      var cubie := cubies[i];
      VisibleSnoc(cubies, faces, i);
      for j := 0 to |faces|
        invariant count == Visible(cubies[..i], faces) + FacesShown(cubie, faces[..j])
      {
        FacesShownSnoc(cubie, faces, j);
        if Dot(cubie, faces[j]) == 1 {
          count := count + 1;
        }
      }
      assert faces[..|faces|] == faces;
    }
    assert cubies[..|cubies|] == cubies;
  }

  /** The fourth check of `Main2`: count the pairs of a cubie of the
      enumeration and a basis face it shows. There are 54. */
  method CountVisibleStickers() returns (count: nat)
    ensures count == Visible(AllArrows(), Basis())
    ensures count == 54
  {
    var cubies := Arrows();
    var basis := Basis();
    count := CountVisible(cubies, basis);
    VisibleStickers(basis);
  }

  /** A step with no extra turn is the plain Neighbour and ReOrient pair. */
  lemma StepWithoutTurn(w: Walker)
    ensures Step(w, 0) ==
      match (Neighbour(w.sticker, w.direction), ReOrient(w.sticker, w.direction))
      case (Some(n), Some(d)) => Some(Walker(n, d))
      case _ => None
  {
  }

  /** `FollowDirections`: twelve Neighbour and ReOrient steps, `None` when a
      step throws. It takes the same walk as `Loop`, so from a sticker on the
      outside of the cube it comes back to that sticker. */
  method FollowDirections(result: CubieFace, direction: Arrow) returns (r: Option<CubieFace>)
    ensures r == EndSticker(Walk(Walker(result, direction), LoopTurns))
    ensures OnSurface(Walker(result, direction)) && Dot(result.cubie, result.face) == 1 ==> r == Some(result)
  {
    ghost var start := Walker(result, direction);
    var current, heading := result, direction;
    if OnSurface(start) {
      WalkStaysOnSurface(start, LoopTurns);
    }
    LoopTurnsAreZero();
    for i := 0 to 12
      invariant Walk(start, LoopTurns) == Walk(Walker(current, heading), LoopTurns[i..])
    {
      var next := Neighbour(current, heading);
      var turned := ReOrient(current, heading);
      StepWithoutTurn(Walker(current, heading));
      assert LoopTurns[i..][0] == LoopTurns[i] == 0 && LoopTurns[i..][1..] == LoopTurns[i + 1..];
      if next.None? || turned.None? {
        return None;
      }
      current, heading := next.value, turned.value;
    }
    assert LoopTurns[12..] == [];
    r := Some(current);
    if OnSurface(start) && Dot(result.cubie, result.face) == 1 {
      LoopCloses(start);
    }
  }
}
