/** The three-valued scalar of the cube algebra. As an integer (the cast
    `(int)sign`) a Sign is -1, 0 or 1. */
module Signs {

  datatype Sign = Negative | Zero | Positive

  /** The integer a Sign stands for. */
  function ToInt(s: Sign): (n: int)
    ensures -1 <= n <= 1
    ensures n < 0 <==> s == Negative
    ensures n == 0 <==> s == Zero
    ensures n > 0 <==> s == Positive
  {
    match s
    case Negative => -1
    case Zero => 0
    case Positive => 1
  }

  /** The cast `(Sign)n`, defined for -1, 0 and 1. */
  function FromInt(n: int): (s: Sign)
    requires -1 <= n <= 1
    ensures ToInt(s) == n
  {
    if n < 0 then Negative else if n == 0 then Zero else Positive
  }

  lemma FromIntToInt(s: Sign)
    ensures FromInt(ToInt(s)) == s
  {
  }

  /** Sign negation. */
  function Neg(s: Sign): (r: Sign)
    ensures ToInt(r) == -ToInt(s)
  {
    match s
    case Negative => Positive
    case Zero => Zero
    case Positive => Negative
  }

  /** Sign multiplication. */
  function Mul(s: Sign, t: Sign): Sign {
    if s == Zero || t == Zero then Zero
    else if s == t then Positive
    else Negative
  }

  /** The product of two signs is again a sign: Mul is integer
      multiplication on -1, 0 and 1. */
  lemma MulToInt(s: Sign, t: Sign)
    ensures ToInt(Mul(s, t)) == ToInt(s) * ToInt(t)
  {
  }

  /** The table coordinate `(int)sign + 1` used to index a 3-wide array
      dimension: it is in range and tells the three signs apart. */
  function TableIndex(s: Sign): (i: nat)
    ensures i < 3
    ensures i == ToInt(s) + 1
  {
    match s
    case Negative => 0
    case Zero => 1
    case Positive => 2
  }

  lemma TableIndexInjective(s: Sign, t: Sign)
    ensures TableIndex(s) == TableIndex(t) ==> s == t
  {
  }

}
