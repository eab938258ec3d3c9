/** The finite enumerations of the lattice: the 27 arrows, the unit arrows
    among them (the basis), and the six directions listed axis by axis. */
module Enumerations {
  import opened Signs
  import opened Axes
  import opened ArrowAlgebra

  /** The underlying value of a sign read as an unsigned 32-bit integer:
      -1 is 0xFFFF_FFFF. */
  function UnsignedValue(s: Sign): (u: nat)
    ensures u < 0x1_0000_0000
    ensures ToInt(s) >= 0 ==> u == ToInt(s)
    ensures ToInt(s) < 0 ==> u == ToInt(s) + 0x1_0000_0000
  {
    ToInt(s) % 0x1_0000_0000
  }

  /** `Enum.GetValues(typeof(Sign))`: the signs sorted by the unsigned value
      of their underlying integers, so -1 comes last. */
  const SignValues: seq<Sign> := [Zero, Positive, Negative]

  /** `Enum.GetValues(typeof(Axis))`: the axes in declaration order. */
  const AxisValues: seq<Axis> := [X, Y, Z]

  /** Where a sign stands in `Enum.GetValues(typeof(Sign))`. */
  function ValuePosition(s: Sign): (i: nat)
    ensures i < 3
  {
    match s
    case Zero => 0
    case Positive => 1
    case Negative => 2
  }

  /** The sign enumeration lists every sign once, at its ValuePosition, in
      increasing unsigned value. */
  lemma SignValuesIndex(s: Sign)
    ensures SignValues[ValuePosition(s)] == s
    ensures forall i :: 0 <= i < 3 ==> ValuePosition(SignValues[i]) == i
    ensures forall i, j :: 0 <= i < j < 3 ==> UnsignedValue(SignValues[i]) < UnsignedValue(SignValues[j])
  {
  }

  /** The innermost loop of `Arrows`: z runs over the signs for fixed x, y. */
  function Row(x: Sign, y: Sign): seq<Arrow> {
    [Arrow(x, y, Zero), Arrow(x, y, Positive), Arrow(x, y, Negative)]
  }

  /** The two inner loops of `Arrows`: y, then z, for a fixed x. */
  function Plane(x: Sign): seq<Arrow> {
    Row(x, Zero) + Row(x, Positive) + Row(x, Negative)
  }

  /** The 27 arrows in the order `Arrows` yields them: x outermost, then y,
      then z, each running Zero, Positive, Negative. */
  function AllArrows(): (r: seq<Arrow>)
    ensures |r| == 27
  {
    Plane(Zero) + Plane(Positive) + Plane(Negative)
  }

  /** Where an arrow stands in the enumeration. */
  function IndexOf(a: Arrow): (i: nat)
    ensures i < 27
  {
    9 * ValuePosition(a.x) + 3 * ValuePosition(a.y) + ValuePosition(a.z)
  }

  lemma PlaneAt(x: Sign, b: nat, c: nat)
    requires b < 3 && c < 3
    ensures Plane(x)[3 * b + c] == Arrow(x, SignValues[b], SignValues[c])
  {
  }

  /** The arrow at position 9a + 3b + c has the a-th, b-th and c-th signs as
      its components. */
  lemma AllArrowsAt(a: nat, b: nat, c: nat)
    requires a < 3 && b < 3 && c < 3
    ensures AllArrows()[9 * a + 3 * b + c] == Arrow(SignValues[a], SignValues[b], SignValues[c])
  {
    PlaneAt(SignValues[a], b, c);
  }

  /** Every sign triple occurs exactly once: at IndexOf, and nowhere else. */
  lemma AllArrowsBijective(a: Arrow, i: nat)
    requires i < 27
    ensures AllArrows()[IndexOf(a)] == a
    ensures AllArrows()[i] == a ==> i == IndexOf(a)
  {
    SignValuesIndex(a.x);
    SignValuesIndex(a.y);
    SignValuesIndex(a.z);
    AllArrowsAt(ValuePosition(a.x), ValuePosition(a.y), ValuePosition(a.z));
    var p := if i < 9 then 0 else if i < 18 then 1 else 2;
    var q := if i - 9 * p < 3 then 0 else if i - 9 * p < 6 then 1 else 2;
    AllArrowsAt(p, q, i - 9 * p - 3 * q);
  }

  /** `Arrows()`: three nested loops over the signs, x outermost. */
  method Arrows() returns (r: seq<Arrow>)
    ensures r == AllArrows()
  {
    r := [];
    for xi := 0 to 3
      invariant r == AllArrows()[..9 * xi]
    {
      for yi := 0 to 3
        invariant r == AllArrows()[..9 * xi + 3 * yi]
      {
        for zi := 0 to 3
          invariant r == AllArrows()[..9 * xi + 3 * yi + zi]
        {
          var n := 9 * xi + 3 * yi + zi;
          AllArrowsAt(xi, yi, zi);
          PrefixSnoc(AllArrows(), n);
          r := r + [Arrow(SignValues[xi], SignValues[yi], SignValues[zi])];
        }
      }
    }
    PrefixAll(AllArrows());
  }

  lemma PrefixSnoc<T>(s: seq<T>, n: nat)
    requires n < |s|
    ensures s[..n + 1] == s[..n] + [s[n]]
  {
  }

  lemma PrefixAll<T>(s: seq<T>)
    ensures s[..|s|] == s
  {
  }

  /** The arrows of a sequence with `Dot(a, a) == 1`, in their order. */
  function Units(s: seq<Arrow>): seq<Arrow> {
    if s == [] then [] else (if IsUnit(s[0]) then [s[0]] else []) + Units(s[1..])
  }

  /** Units keeps exactly the unit arrows of its input. */
  lemma {:induction false} UnitsMembers(s: seq<Arrow>, a: Arrow)
    ensures a in Units(s) <==> a in s && IsUnit(a)
  {
    if s != [] {
      UnitsMembers(s[1..], a);
      assert a in s <==> a == s[0] || a in s[1..];
    }
  }

  lemma {:induction false} UnitsAppend(s: seq<Arrow>, t: seq<Arrow>)
    ensures Units(s + t) == Units(s) + Units(t)
  {
    if s == [] {
      assert s + t == t;
    } else {
      assert (s + t)[1..] == s[1..] + t;
      UnitsAppend(s[1..], t);
    }
  }

  /** The unit arrows of one row: the row along the z axis holds two of
      them (+Z before -Z), a row with one zero coordinate among x, y holds
      one, the rest none. */
  function RowUnits(x: Sign, y: Sign): seq<Arrow> {
    if x == Zero && y == Zero then [Arrow(Zero, Zero, Positive), Arrow(Zero, Zero, Negative)]
    else if x == Zero || y == Zero then [Arrow(x, y, Zero)]
    else []
  }

  lemma UnitsOfRow(x: Sign, y: Sign)
    ensures Units(Row(x, y)) == RowUnits(x, y)
  {
    var r := Row(x, y);
    assert r[1..][1..][1..] == [];
    UnitCases(r[0]);
    UnitCases(r[1]);
    UnitCases(r[2]);
  }

  lemma UnitsOfPlane(x: Sign)
    ensures Units(Plane(x)) == RowUnits(x, Zero) + RowUnits(x, Positive) + RowUnits(x, Negative)
  {
    var a, b, c := Row(x, Zero), Row(x, Positive), Row(x, Negative);
    UnitsAppend(a + b, c);
    UnitsAppend(a, b);
    UnitsOfRow(x, Zero);
    UnitsOfRow(x, Positive);
    UnitsOfRow(x, Negative);
  }

  /** `Basis()`: the arrows of the enumeration with `Dot(a, a) == 1`. */
  function Basis(): seq<Arrow> {
    Units(AllArrows())
  }

  /** The basis in enumeration order: +Z, -Z, +Y, -Y, +X, -X. */
  const BasisInOrder: seq<Arrow> := [
    Arrow(Zero, Zero, Positive), Arrow(Zero, Zero, Negative), Arrow(Zero, Positive, Zero),
    Arrow(Zero, Negative, Zero), Arrow(Positive, Zero, Zero), Arrow(Negative, Zero, Zero)]

  /** The unit arrows of the three planes. The signs are parameters pinned
      by the precondition, not literals, so that the solver does not unfold
      the whole enumeration at once. */
  lemma UnitsOfPlanes(z: Sign, p: Sign, n: Sign)
    requires z == Zero && p == Positive && n == Negative
    ensures Units(Plane(z) + Plane(p) + Plane(n)) == BasisInOrder
  {
    UnitsAppend(Plane(z) + Plane(p), Plane(n));
    UnitsAppend(Plane(z), Plane(p));
    UnitsOfPlane(z);
    UnitsOfPlane(p);
    UnitsOfPlane(n);
  }

  /** The basis holds exactly the six unit arrows, in enumeration order. */
  lemma BasisValue()
    ensures Basis() == BasisInOrder
    ensures |Basis()| == 6
  {
    var z, p, n := Zero, Positive, Negative;
    UnitsOfPlanes(z, p, n);
    assert AllArrows() == Plane(z) + Plane(p) + Plane(n);
  }

  /** An arrow is in the basis exactly when it is a unit arrow. */
  lemma BasisIsUnits(a: Arrow)
    ensures a in Basis() <==> IsUnit(a)
  {
    AllArrowsBijective(a, 0);
    UnitsMembers(AllArrows(), a);
  }

  /** `Directions()`: for each axis, the positive and then the negative unit
      arrow along it. */
  method Directions() returns (r: seq<Arrow>)
    ensures r == UnitArrows
  {
    r := [];
    for i := 0 to 3
      invariant r == UnitArrows[..2 * i]
    {
      var axis := AxisValues[i];
      r := r + [AsArrow(axis), Negate(AsArrow(axis))];
    }
  }

  /** Directions and Basis list the same six arrows, in two different
      orders. */
  lemma DirectionsAreBasis(a: Arrow)
    ensures a in UnitArrows <==> a in Basis()
    ensures |UnitArrows| == |Basis()| == 6
    ensures UnitArrows != Basis()
  {
    BasisValue();
    BasisIsUnits(a);
    UnitCases(a);
    assert UnitArrows[0] != BasisInOrder[0];
  }
}
