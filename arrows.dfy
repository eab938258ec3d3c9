/** Arrows: triples of Signs, used both as positions on the 3x3x3 cubie
    lattice and as directions. Every operation here is defined from the way
    the cube algebra calls it. */
module ArrowAlgebra {
  import opened Signs
  import opened Axes
  import opened Autos

  datatype Arrow = Arrow(x: Sign, y: Sign, z: Sign)

  const Origin := Arrow(Zero, Zero, Zero)

  /** The component along an axis, `arrow[axis]`. */
  function Get(a: Arrow, axis: Axis): Sign {
    match axis
    case X => a.x
    case Y => a.y
    case Z => a.z
  }

  /** The positive unit arrow along an axis. */
  function AsArrow(axis: Axis): (r: Arrow)
    ensures Get(r, axis) == Positive
    ensures forall other :: other != axis ==> Get(r, other) == Zero
  {
    match axis
    case X => Arrow(Positive, Zero, Zero)
    case Y => Arrow(Zero, Positive, Zero)
    case Z => Arrow(Zero, Zero, Positive)
  }

  /** The inner product, as an integer. */
  function Dot(a: Arrow, b: Arrow): (n: int)
    ensures -3 <= n <= 3
  {
    ToInt(Mul(a.x, b.x)) + ToInt(Mul(a.y, b.y)) + ToInt(Mul(a.z, b.z))
  }

  /** The number of non-zero components of an arrow. */
  function NonZeroCount(a: Arrow): nat {
    (if a.x == Zero then 0 else 1) + (if a.y == Zero then 0 else 1) + (if a.z == Zero then 0 else 1)
  }

  /** The squared length `Dot(a, a)`; the magnitude is its square root. */
  function SquaredMagnitude(a: Arrow): (n: nat)
    ensures n == NonZeroCount(a)
    ensures n == 0 <==> a == Origin
  {
    Dot(a, a)
  }

  /** Component-wise negation. */
  function Negate(a: Arrow): (r: Arrow)
    ensures forall axis :: ToInt(Get(r, axis)) == -ToInt(Get(a, axis))
  {
    Arrow(Neg(a.x), Neg(a.y), Neg(a.z))
  }

  /** Component-wise multiplication by a scalar sign. */
  function Scale(a: Arrow, s: Sign): (r: Arrow)
    ensures forall axis :: ToInt(Get(r, axis)) == ToInt(Get(a, axis)) * ToInt(s)
  {
    Arrow(Mul(a.x, s), Mul(a.y, s), Mul(a.z, s))
  }

  /** Component-wise addition is a Sign triple exactly when no component
      sum leaves {-1, 0, 1}. */
  predicate AddFits(a: Arrow, b: Arrow) {
    && -1 <= ToInt(a.x) + ToInt(b.x) <= 1
    && -1 <= ToInt(a.y) + ToInt(b.y) <= 1
    && -1 <= ToInt(a.z) + ToInt(b.z) <= 1
  }

  /** Component-wise addition, where it stays on the lattice. */
  function Add(a: Arrow, b: Arrow): (r: Arrow)
    requires AddFits(a, b)
    ensures forall axis :: ToInt(Get(r, axis)) == ToInt(Get(a, axis)) + ToInt(Get(b, axis))
  {
    Arrow(FromInt(ToInt(a.x) + ToInt(b.x)), FromInt(ToInt(a.y) + ToInt(b.y)), FromInt(ToInt(a.z) + ToInt(b.z)))
  }

  /** The exact integer components of the cross product a x b. */
  function CrossX(a: Arrow, b: Arrow): int { ToInt(Mul(a.y, b.z)) - ToInt(Mul(a.z, b.y)) }
  function CrossY(a: Arrow, b: Arrow): int { ToInt(Mul(a.z, b.x)) - ToInt(Mul(a.x, b.z)) }
  function CrossZ(a: Arrow, b: Arrow): int { ToInt(Mul(a.x, b.y)) - ToInt(Mul(a.y, b.x)) }

  predicate CrossFits(a: Arrow, b: Arrow) {
    -1 <= CrossX(a, b) <= 1 && -1 <= CrossY(a, b) <= 1 && -1 <= CrossZ(a, b) <= 1
  }

  /** The integer identity behind the cross product's perpendicularity:
      with c == a x b, c . a == 0 and c . b == 0. */
  lemma TripleProductZero(a1: int, a2: int, a3: int, b1: int, b2: int, b3: int, c1: int, c2: int, c3: int)
    requires c1 == a2 * b3 - a3 * b2 && c2 == a3 * b1 - a1 * b3 && c3 == a1 * b2 - a2 * b1
    ensures c1 * a1 + c2 * a2 + c3 * a3 == 0
    ensures c1 * b1 + c2 * b2 + c3 * b3 == 0
  {
  }

  /** The cross product is perpendicular to both operands. */
  lemma CrossPerpendicular(a: Arrow, b: Arrow, r: Arrow)
    requires CrossFits(a, b)
    requires r == Arrow(FromInt(CrossX(a, b)), FromInt(CrossY(a, b)), FromInt(CrossZ(a, b)))
    ensures Dot(r, a) == 0 && Dot(r, b) == 0
  {
    var a1, a2, a3 := ToInt(a.x), ToInt(a.y), ToInt(a.z);
    var b1, b2, b3 := ToInt(b.x), ToInt(b.y), ToInt(b.z);
    var c1, c2, c3 := ToInt(r.x), ToInt(r.y), ToInt(r.z);
    MulToInt(a.y, b.z); MulToInt(a.z, b.y); MulToInt(a.z, b.x);
    MulToInt(a.x, b.z); MulToInt(a.x, b.y); MulToInt(a.y, b.x);
    MulToInt(r.x, a.x); MulToInt(r.y, a.y); MulToInt(r.z, a.z);
    MulToInt(r.x, b.x); MulToInt(r.y, b.y); MulToInt(r.z, b.z);
    TripleProductZero(a1, a2, a3, b1, b2, b3, c1, c2, c3);
  }

  /** The cross product, where it stays on the lattice; it is perpendicular
      to both operands. */
  function Cross(a: Arrow, b: Arrow): (r: Arrow)
    requires CrossFits(a, b)
    ensures Dot(r, a) == 0 && Dot(r, b) == 0
  {
    var r := Arrow(FromInt(CrossX(a, b)), FromInt(CrossY(a, b)), FromInt(CrossZ(a, b)));
    CrossPerpendicular(a, b, r);
    r
  }

  /** CheckUnit: exactly one non-zero component. */
  predicate IsUnit(a: Arrow) {
    Dot(a, a) == 1
  }

  /** CheckNonZero: at least one non-zero component. */
  predicate IsNonZero(a: Arrow) {
    a != Origin
  }

  /** CheckParallel: `a` has a non-zero component along the (unit) axis. */
  predicate IsParallel(a: Arrow, axis: Arrow) {
    Dot(a, axis) != 0
  }

  /** CheckPerpendicular: `a` has no component along the (unit) axis. */
  predicate IsPerpendicular(a: Arrow, axis: Arrow) {
    Dot(a, axis) == 0
  }

  /** The six unit arrows, in the order X, -X, Y, -Y, Z, -Z. */
  const UnitArrows: seq<Arrow> := [
    Arrow(Positive, Zero, Zero), Arrow(Negative, Zero, Zero),
    Arrow(Zero, Positive, Zero), Arrow(Zero, Negative, Zero),
    Arrow(Zero, Zero, Positive), Arrow(Zero, Zero, Negative)]

  /** Negating one side negates the inner product. */
  lemma DotNegate(a: Arrow, b: Arrow)
    ensures Dot(a, Negate(b)) == -Dot(a, b)
    ensures IsUnit(Negate(b)) <==> IsUnit(b)
  {
    assert Dot(Negate(b), Negate(b)) == Dot(b, b);
  }

  /** A unit arrow is one of the six directions, and conversely. */
  lemma UnitCases(a: Arrow)
    ensures IsUnit(a) <==> a in UnitArrows
    ensures IsUnit(a) <==> NonZeroCount(a) == 1
  {
    assert SquaredMagnitude(a) == NonZeroCount(a);
  }

  /** For a unit axis, the cross product with any arrow stays on the
      lattice, and so does adding back the part along the axis. */
  lemma UnitCrossFits(axis: Arrow, v: Arrow)
    requires IsUnit(axis)
    ensures CrossFits(axis, v)
    ensures -1 <= Dot(axis, v) <= 1
    ensures AddFits(Cross(axis, v), Scale(axis, FromInt(Dot(axis, v))))
  {
    UnitCases(axis);
  }

  /** The quarter turn about a unit axis: the cross product with the axis,
      plus the component of `v` along the axis, which the turn keeps. */
  function RotateVector(axis: Arrow, v: Arrow): (r: Arrow)
    requires IsUnit(axis)
  {
    UnitCrossFits(axis, v);
    Add(Cross(axis, v), Scale(axis, FromInt(Dot(axis, v))))
  }

  /** The quarter turns written out axis by axis: an independent table of
      the six right-handed quarter turns. */
  function QuarterTurn(axis: Arrow, v: Arrow): Arrow {
    if axis == Arrow(Positive, Zero, Zero) then Arrow(v.x, Neg(v.z), v.y)
    else if axis == Arrow(Negative, Zero, Zero) then Arrow(v.x, v.z, Neg(v.y))
    else if axis == Arrow(Zero, Positive, Zero) then Arrow(v.z, v.y, Neg(v.x))
    else if axis == Arrow(Zero, Negative, Zero) then Arrow(Neg(v.z), v.y, v.x)
    else if axis == Arrow(Zero, Zero, Positive) then Arrow(Neg(v.y), v.x, v.z)
    else Arrow(v.y, Neg(v.x), v.z)
  }

  lemma NegMul(s: Sign, t: Sign)
    ensures Mul(Neg(s), Neg(t)) == Mul(s, t)
  {
  }

  lemma MulUnit(s: Sign)
    ensures Mul(Positive, s) == s && Mul(s, Positive) == s
    ensures Mul(Negative, s) == Neg(s) && Mul(s, Negative) == Neg(s)
    ensures Mul(Zero, s) == Zero && Mul(s, Zero) == Zero
  {
  }

  /** The cross-product rotation about the x axis, either way round. */
  lemma RotateVectorAboutX(s: Sign, v: Arrow)
    requires s != Zero
    ensures RotateVector(Arrow(s, Zero, Zero), v) == QuarterTurn(Arrow(s, Zero, Zero), v)
  {
    MulUnit(v.x);
    MulUnit(v.y);
    MulUnit(v.z);
    if s == Positive {
    } else {
      assert s == Negative;
    }
  }

  lemma RotateVectorAboutY(s: Sign, v: Arrow)
    requires s != Zero
    ensures RotateVector(Arrow(Zero, s, Zero), v) == QuarterTurn(Arrow(Zero, s, Zero), v)
  {
    MulUnit(v.x);
    MulUnit(v.y);
    MulUnit(v.z);
    if s == Positive {
    } else {
      assert s == Negative;
    }
  }

  lemma RotateVectorAboutZ(s: Sign, v: Arrow)
    requires s != Zero
    ensures RotateVector(Arrow(Zero, Zero, s), v) == QuarterTurn(Arrow(Zero, Zero, s), v)
  {
    MulUnit(v.x);
    MulUnit(v.y);
    MulUnit(v.z);
    if s == Positive {
    } else {
      assert s == Negative;
    }
  }

  /** The cross-product rotation agrees with the table of quarter turns. */
  lemma RotateVectorIsQuarterTurn(axis: Arrow, v: Arrow)
    requires IsUnit(axis)
    ensures RotateVector(axis, v) == QuarterTurn(axis, v)
  {
    UnitCases(axis);
    if axis.x != Zero {
      assert axis == Arrow(axis.x, Zero, Zero);
      RotateVectorAboutX(axis.x, v);
    } else if axis.y != Zero {
      assert axis == Arrow(Zero, axis.y, Zero);
      RotateVectorAboutY(axis.y, v);
    } else {
      assert axis == Arrow(Zero, Zero, axis.z);
      RotateVectorAboutZ(axis.z, v);
    }
  }

  /** `axis.Rotate()`: the quarter-turn automorphism of the arrows. */
  function Rotate(axis: Arrow): (r: Auto<Arrow>)
    requires IsUnit(axis)
    ensures forall v :: r.Morph(v) == QuarterTurn(axis, v)
  {
    forall v ensures RotateVector(axis, v) == QuarterTurn(axis, v) {
      RotateVectorIsQuarterTurn(axis, v);
    }
    Auto(v => RotateVector(axis, v))
  }

  /** Four quarter turns about a unit axis give back every arrow. */
  lemma RotatePowerFour(axis: Arrow, v: Arrow)
    requires IsUnit(axis)
    ensures Rotate(axis).Power(4).Morph(v) == v
  {
    var r := Rotate(axis);
    QuarterTurnFour(axis, v);
    assert r.Power(4).Morph(v) == r.Morph(r.Power(3).Morph(v));
    assert r.Power(3).Morph(v) == r.Morph(r.Power(2).Morph(v));
    assert r.Power(2).Morph(v) == r.Morph(r.Power(1).Morph(v));
    assert r.Power(1).Morph(v) == r.Morph(r.Power(0).Morph(v));
  }

  /** A quarter turn keeps inner products, hence lengths. */
  lemma RotatePreservesDot(axis: Arrow, v: Arrow, w: Arrow)
    requires IsUnit(axis)
    ensures Dot(Rotate(axis).Morph(v), Rotate(axis).Morph(w)) == Dot(v, w)
  {
    UnitCases(axis);
    assert Rotate(axis).Morph(v) == QuarterTurn(axis, v);
    assert Rotate(axis).Morph(w) == QuarterTurn(axis, w);
    NegMul(v.x, w.x);
    NegMul(v.y, w.y);
    NegMul(v.z, w.z);
  }

  /** A quarter turn fixes its axis and keeps every arrow's component along
      the axis. */
  lemma RotateKeepsAxis(axis: Arrow, v: Arrow)
    requires IsUnit(axis)
    ensures Rotate(axis).Morph(axis) == axis
    ensures Dot(Rotate(axis).Morph(v), axis) == Dot(v, axis)
  {
    var r := Rotate(axis);
    assert r.Morph(axis) == QuarterTurn(axis, axis);
    assert r.Morph(v) == QuarterTurn(axis, v);
    UnitCases(axis);
    assert QuarterTurn(axis, axis) == axis;
    RotatePreservesDot(axis, v, axis);
  }

  /** Rotation preserves the squared magnitude of every arrow, and with it
      the unit and non-zero properties. */
  lemma RotatePreservesMagnitude(axis: Arrow, v: Arrow)
    requires IsUnit(axis)
    ensures SquaredMagnitude(Rotate(axis).Morph(v)) == SquaredMagnitude(v)
    ensures IsUnit(Rotate(axis).Morph(v)) <==> IsUnit(v)
    ensures IsNonZero(Rotate(axis).Morph(v)) <==> IsNonZero(v)
  {
    RotatePreservesDot(axis, v, v);
  }

  /** On an arrow perpendicular to the axis, the rotation is the plain
      cross product with the axis. */
  lemma RotateIsCrossOnPerpendicular(axis: Arrow, v: Arrow)
    requires IsUnit(axis) && IsPerpendicular(v, axis)
    ensures CrossFits(axis, v)
    ensures Rotate(axis).Morph(v) == Cross(axis, v)
  {
    UnitCrossFits(axis, v);
    assert Dot(axis, v) == 0 by {
      MulUnit(v.x);
      MulUnit(v.y);
      MulUnit(v.z);
    }
    assert Scale(axis, FromInt(Dot(axis, v))) == Origin by {
      MulUnit(axis.x);
      MulUnit(axis.y);
      MulUnit(axis.z);
    }
    assert Rotate(axis).Morph(v) == Add(Cross(axis, v), Origin);
  }

  /** The cross product of two perpendicular unit arrows is a unit arrow:
      |a x b| == |a| * |b|. */
  lemma CrossOfPerpendicularUnits(a: Arrow, b: Arrow)
    requires IsUnit(a) && IsUnit(b) && IsPerpendicular(b, a)
    ensures CrossFits(a, b) && IsUnit(Cross(a, b))
  {
    RotateIsCrossOnPerpendicular(a, b);
    RotatePreservesMagnitude(a, b);
  }

  /** Four quarter turns of the table give back every arrow. */
  lemma QuarterTurnFour(axis: Arrow, v: Arrow)
    requires IsUnit(axis)
    ensures QuarterTurn(axis, QuarterTurn(axis, QuarterTurn(axis, QuarterTurn(axis, v)))) == v
  {
    UnitCases(axis);
    assert Neg(Neg(v.x)) == v.x && Neg(Neg(v.y)) == v.y && Neg(Neg(v.z)) == v.z;
  }

}
