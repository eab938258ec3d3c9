/** The lattice side of drawing the cube: the four corners of a face's
    square, and the triangle fan that turns a polygon into triangles with a
    colour after every vertex. Vertex and colour values are kept abstract. */
module Polygons {
  import opened Wrappers
  import opened Signs
  import opened ArrowAlgebra

  /** Triangle `i` of the fan over `vertices`, each vertex followed by the
      colour. */
  function Triangle<V>(color: V, vertices: seq<V>, i: nat): (r: seq<V>)
    requires i + 2 < |vertices|
    ensures |r| == 6
  {
    [vertices[0], color, vertices[i + 1], color, vertices[i + 2], color]
  }

  /** The first `k` triangles of the fan, in order. */
  function Fan<V>(color: V, vertices: seq<V>, k: nat): (r: seq<V>)
    requires k + 2 <= |vertices|
    ensures |r| == 6 * k
  {
    if k == 0 then [] else Fan(color, vertices, k - 1) + Triangle(color, vertices, k - 1)
  }

  /** The fan holds six items per triangle; item `6 i + j` is item `j` of
      triangle `i`. */
  lemma {:induction false} FanShape<V>(color: V, vertices: seq<V>, k: nat)
    requires k + 2 <= |vertices|
    ensures forall i, j :: 0 <= i < k && 0 <= j < 6 ==>
      Fan(color, vertices, k)[6 * i + j] == Triangle(color, vertices, i)[j]
  {
    if k > 0 {
      FanShape(color, vertices, k - 1);
    }
  }

  /** Every triangle of the fan starts at the first vertex, and every
      vertex is followed by the colour. */
  lemma FanIsFan<V>(color: V, vertices: seq<V>, k: nat, i: nat)
    requires k + 2 <= |vertices| && i < k
    ensures Fan(color, vertices, k)[6 * i] == vertices[0]
    ensures Fan(color, vertices, k)[6 * i + 1] == color
    ensures Fan(color, vertices, k)[6 * i + 2] == vertices[i + 1]
    ensures Fan(color, vertices, k)[6 * i + 3] == color
    ensures Fan(color, vertices, k)[6 * i + 4] == vertices[i + 2]
    ensures Fan(color, vertices, k)[6 * i + 5] == color
  {
    FanShape(color, vertices, k);
    assert Triangle(color, vertices, i)[0] == vertices[0];
  }

  /** `EnumeratePolygon`: `None` (the source throws) for fewer than three
      vertices; otherwise the fan of all `|vertices| - 2` triangles around
      the first vertex, six items each. */
  method EnumeratePolygon<V>(color: V, vertices: seq<V>) returns (r: Option<seq<V>>)
    ensures r.None? <==> |vertices| < 3
    ensures r.Some? ==> r.value == Fan(color, vertices, |vertices| - 2)
    ensures r.Some? ==> |r.value| == 6 * (|vertices| - 2)
  {
    if |vertices| < 3 {
      return None;
    }
    var items := [];
    var index := 0;
    while index + 2 < |vertices|
      invariant index + 2 <= |vertices|
      invariant items == Fan(color, vertices, index)
    {
      items := items + [vertices[0], color, vertices[index + 1], color, vertices[index + 2], color];
      index := index + 1;
    }
    FanShape(color, vertices, index);
    r := Some(items);
  }

  /** The corner of the cube the squares start from. */
  const Corner := Arrow(Negative, Negative, Negative)

  /** The cast `(Sign)direction.Dot(corner)` is in range: for a unit
      direction the inner product with the corner is -1 or 1, and taking
      that projection off the corner stays on the lattice. */
  lemma CornerProjection(direction: Arrow)
    requires IsUnit(direction)
    ensures Dot(direction, Corner) == -1 || Dot(direction, Corner) == 1
    ensures AddFits(Corner, Negate(Scale(direction, FromInt(Dot(direction, Corner)))))
  {
    UnitCases(direction);
  }

  /** The first vertex of a face's square: the corner with its component
      along the face direction removed. It lies in the plane of the face
      and is the corner of that plane's square. */
  function FirstVertex(direction: Arrow): (v: Arrow)
    requires IsUnit(direction)
    ensures IsPerpendicular(v, direction) && NonZeroCount(v) == 2
  {
    CornerProjection(direction);
    UnitCases(direction);
    Add(Corner, Negate(Scale(direction, FromInt(Dot(direction, Corner)))))
  }

  /** A square corner in the plane perpendicular to a unit direction: the
      cross product with the direction fits, is the quarter turn about it,
      and is again such a corner, different from the first and from its
      opposite. */
  lemma CornerStep(direction: Arrow, v: Arrow)
    requires IsUnit(direction) && IsPerpendicular(v, direction) && NonZeroCount(v) == 2
    ensures CrossFits(direction, v)
    ensures var w := Cross(direction, v);
      && w == QuarterTurn(direction, v)
      && IsPerpendicular(w, direction) && NonZeroCount(w) == 2
      && w != v && w != Negate(v)
      && QuarterTurn(direction, w) == Negate(v)
  {
    DotNegate(v, direction);
    RotateIsCrossOnPerpendicular(direction, v);
    UnitCases(direction);
  }

  lemma NegateDistinct(v: Arrow, w: Arrow)
    requires v != Origin && v != w && v != Negate(w)
    ensures Negate(v) != v && Negate(v) != w && Negate(v) != Negate(w) && Negate(Negate(v)) == v
  {
  }

  /** Four successive quarter turns of a square corner: each cross product
      fits and equals the quarter turn, the four corners are distinct, and
      the fourth turn comes back to the start. */
  lemma SquareCorners(direction: Arrow, v0: Arrow)
    requires IsUnit(direction) && IsPerpendicular(v0, direction) && NonZeroCount(v0) == 2
    ensures var v1 := QuarterTurn(direction, v0);
      var v2 := QuarterTurn(direction, v1);
      var v3 := QuarterTurn(direction, v2);
      && CrossFits(direction, v0) && Cross(direction, v0) == v1
      && CrossFits(direction, v1) && Cross(direction, v1) == v2
      && CrossFits(direction, v2) && Cross(direction, v2) == v3
      && CrossFits(direction, v3) && Cross(direction, v3) == v0
      && IsPerpendicular(v1, direction) && NonZeroCount(v1) == 2
      && IsPerpendicular(v2, direction) && NonZeroCount(v2) == 2
      && IsPerpendicular(v3, direction) && NonZeroCount(v3) == 2
      && v0 != v1 && v0 != v2 && v0 != v3 && v1 != v2 && v1 != v3 && v2 != v3
  {
    CornerStep(direction, v0);
    var v1 := Cross(direction, v0);
    CornerStep(direction, v1);
    var v2 := Cross(direction, v1);
    CornerStep(direction, v2);
    var v3 := Cross(direction, v2);
    CornerStep(direction, v3);
    NegateDistinct(v0, v1);
  }

  /** `SquareVertices` on the lattice: the first vertex, then each next one
      the cross product of the face direction with the one before. */
  function SquareVertices(direction: Arrow): (r: seq<Arrow>)
    requires IsUnit(direction)
    ensures |r| == 4
  {
    var v0 := FirstVertex(direction);
    SquareCorners(direction, v0);
    var v1 := Cross(direction, v0);
    var v2 := Cross(direction, v1);
    var v3 := Cross(direction, v2);
    [v0, v1, v2, v3]
  }

  /** The four vertices are distinct corners of the face's plane, and one
      more cross product closes the square. */
  lemma SquareVerticesShape(direction: Arrow)
    requires IsUnit(direction)
    ensures var r := SquareVertices(direction);
      && (forall k :: 0 <= k < 4 ==> IsPerpendicular(r[k], direction) && NonZeroCount(r[k]) == 2)
      && (forall k, l :: 0 <= k < l < 4 ==> r[k] != r[l])
      && CrossFits(direction, r[3]) && Cross(direction, r[3]) == r[0]
  {
    var v0 := FirstVertex(direction);
    SquareCorners(direction, v0);
    var v1 := QuarterTurn(direction, v0);
    var v2 := QuarterTurn(direction, v1);
    var v3 := QuarterTurn(direction, v2);
    var r := SquareVertices(direction);
    assert r == [v0, v1, v2, v3];
    forall k, l | 0 <= k < l < 4 ensures r[k] != r[l] {
    }
  }
}
