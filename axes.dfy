/** The three principal axes, in enumeration order X, Y, Z. */
module Axes {

  datatype Axis = X | Y | Z

  /** The cast `(int)axis`. */
  function Ordinal(a: Axis): (n: nat)
    ensures n < 3
  {
    match a
    case X => 0
    case Y => 1
    case Z => 2
  }

  /** The cast `(Axis)n`, defined for the three ordinals. */
  function FromOrdinal(n: int): (a: Axis)
    requires 0 <= n < 3
    ensures Ordinal(a) == n
  {
    if n == 0 then X else if n == 1 then Y else Z
  }

  /** The next axis in cyclic order: `(Axis)(((int)axis + 1) % 3)`. */
  function Cycle(a: Axis): (r: Axis)
    ensures Ordinal(r) == (Ordinal(a) + 1) % 3
    ensures r != a
  {
    FromOrdinal((Ordinal(a) + 1) % 3)
  }

  lemma CycleTable()
    ensures Cycle(X) == Y && Cycle(Y) == Z && Cycle(Z) == X
  {
  }

  lemma CycleThrice(a: Axis)
    ensures Cycle(Cycle(Cycle(a))) == a
  {
  }

  lemma CycleBijective(a: Axis, b: Axis)
    ensures Cycle(a) == Cycle(b) ==> a == b
    ensures exists c :: Cycle(c) == a
  {
    CycleThrice(a);
  }

}
