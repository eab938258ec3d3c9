/** The sticker types of the cube algebra: a sticker is a (cubie, face)
    pair, validated when it is built; a face turn wraps a unit axis. */
module Stickers {
  import opened Wrappers
  import opened Signs
  import opened Axes
  import opened ArrowAlgebra

  /** The six colours of the cube. */
  datatype Color = Green | Blue | Orange | Red | Yellow | White

  /** The older sticker: a cubie and the axis of its face. */
  datatype CubieFace2 = CubieFace2(cubie: Arrow, face: Axis)

  /** The constructor of `CubieFace2`: `None` when it throws, which it does
      when the cubie has no component on the face axis. */
  function MakeCubieFace2(cubie: Arrow, face: Axis): (r: Option<CubieFace2>)
    ensures r.Some? <==> Get(cubie, face) != Zero
    ensures r.Some? ==> r.value == CubieFace2(cubie, face)
  {
    if Get(cubie, face) == Zero then None else Some(CubieFace2(cubie, face))
  }

  /** The cell of the 3x3x3x3 colour table that holds a `CubieFace2`:
      the face axis ordinal, then `(int)sign + 1` for each cubie component. */
  function Slot(f: CubieFace2): (slot: (nat, nat, nat, nat))
    ensures slot.0 < 3 && slot.1 < 3 && slot.2 < 3 && slot.3 < 3
  {
    (Ordinal(f.face), TableIndex(f.cubie.x), TableIndex(f.cubie.y), TableIndex(f.cubie.z))
  }

  /** Distinct stickers own distinct cells of the table. */
  lemma SlotInjective(f: CubieFace2, g: CubieFace2)
    ensures Slot(f) == Slot(g) ==> f == g
  {
    if Slot(f) == Slot(g) {
      TableIndexInjective(f.cubie.x, g.cubie.x);
      TableIndexInjective(f.cubie.y, g.cubie.y);
      TableIndexInjective(f.cubie.z, g.cubie.z);
    }
  }

  /** The table-backed cube: a 3x3x3x3 array of colours that is only read. */
  class RubikCube2 {
    const table: array4<Color>

    /** A fresh table; every cell holds the element type's default colour. */
    constructor (default: Color)
      ensures fresh(table)
      ensures table.Length0 == 3 && table.Length1 == 3 && table.Length2 == 3 && table.Length3 == 3
      ensures forall f :: Lookup(f) == default
    {
      table := new Color[3, 3, 3, 3]((i, j, k, l) => default);
    }

    /** The indexer: the colour in the cell owned by the sticker. */
    function Lookup(f: CubieFace2): Color
      reads table
      requires table.Length0 == 3 && table.Length1 == 3 && table.Length2 == 3 && table.Length3 == 3
    {
      var slot := Slot(f);
      table[slot.0, slot.1, slot.2, slot.3]
    }
  }

  /** A sticker: the cubie it sits on and the outward normal of its face. */
  datatype CubieFace = CubieFace(cubie: Arrow, face: Arrow)

  /** `Check()`: the cubie is non-zero, the face is a unit arrow, and the
      cubie has a non-zero component along the face's axis. */
  predicate Valid(s: CubieFace) {
    IsNonZero(s.cubie) && IsUnit(s.face) && IsParallel(s.cubie, s.face)
  }

  /** The axis a unit arrow lies along. */
  function AxisOf(face: Arrow): Axis {
    if face.x != Zero then X else if face.y != Zero then Y else Z
  }

  /** The constructor of `CubieFace`: `None` when `Check()` throws. A pair is
      accepted exactly when the face is one of the six unit arrows and the
      cubie has a non-zero component on that face's axis. */
  function MakeCubieFace(cubie: Arrow, face: Arrow): (r: Option<CubieFace>)
    ensures r.Some? <==> face in UnitArrows && Get(cubie, AxisOf(face)) != Zero
    ensures r.Some? ==> r.value == CubieFace(cubie, face) && Valid(r.value)
  {
    UnitCases(face);
    var s := CubieFace(cubie, face);
    if Valid(s) then Some(s) else None
  }

  /** A face turn: the layer `cubie . axis > 0` turned about a unit axis. */
  datatype FaceTurn = FaceTurn(axis: Arrow)

  /** The constructor of `FaceTurn`: `None` when `CheckUnit` throws. */
  function MakeFaceTurn(axis: Arrow): (r: Option<FaceTurn>)
    ensures r.Some? <==> axis in UnitArrows
    ensures r.Some? ==> r.value.axis == axis
  {
    UnitCases(axis);
    if IsUnit(axis) then Some(FaceTurn(axis)) else None
  }

}
