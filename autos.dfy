/** Automorphisms: a self-map of a value domain wrapped as a value, which can
    be applied (`Morph`) and composed with itself (`Power`). The same wrapper
    carries rotations of arrows and permutations of whole cube states. */
module Autos {

  datatype Auto<!T(!new)> = Auto(morphF: T -> T) {

    /** Applies the wrapped map. */
    function Morph(x: T): T {
      morphF(x)
    }

    /** The n-fold self-composition; `Power(0)` is the identity. */
    function Power(n: nat): (p: Auto<T>)
      ensures n == 0 ==> forall x :: p.Morph(x) == x
    {
      Auto(x => Iterate(morphF, n, x))
    }
  }

  /** `f` applied `n` times to `x`. */
  function Iterate<T>(f: T -> T, n: nat, x: T): T
    decreases n
  {
    if n == 0 then x else f(Iterate(f, n - 1, x))
  }

  /** One more power is one more application, on the outside. */
  lemma PowerSucc<T(!new)>(a: Auto<T>, n: nat, x: T)
    ensures a.Power(n + 1).Morph(x) == a.Morph(a.Power(n).Morph(x))
  {
  }

  /** Powers add: `Power(m + n) == Power(m) . Power(n)`. */
  lemma {:induction false} PowerAdd<T(!new)>(a: Auto<T>, m: nat, n: nat, x: T)
    ensures a.Power(m + n).Morph(x) == a.Power(m).Morph(a.Power(n).Morph(x))
  {
    if m > 0 {
      PowerAdd(a, m - 1, n, x);
      PowerSucc(a, m - 1 + n, x);
      PowerSucc(a, m - 1, a.Power(n).Morph(x));
    }
  }

  /** The fourth power written out. */
  lemma PowerFour<T(!new)>(a: Auto<T>, x: T)
    ensures a.Power(4).Morph(x) == a.Morph(a.Morph(a.Morph(a.Morph(x))))
  {
    PowerSucc(a, 0, x);
    PowerSucc(a, 1, x);
    PowerSucc(a, 2, x);
    PowerSucc(a, 3, x);
  }

  /** A property the map preserves is preserved by every power of it. */
  lemma {:induction false} PowerPreserves<T(!new)>(a: Auto<T>, P: T -> bool, n: nat, x: T)
    requires forall y :: P(y) ==> P(a.Morph(y))
    requires P(x)
    ensures P(a.Power(n).Morph(x))
  {
    if n > 0 {
      PowerPreserves(a, P, n - 1, x);
      PowerSucc(a, n - 1, x);
    }
  }

  /** If the p-th power is the identity, so is every multiple of it. */
  lemma {:induction false} PowerPeriodic<T(!new)>(a: Auto<T>, p: nat, k: nat, x: T)
    requires forall y :: a.Power(p).Morph(y) == y
    ensures a.Power(p * k).Morph(x) == x
  {
    if k > 0 {
      assert p * k == p + p * (k - 1);
      PowerAdd(a, p, p * (k - 1), x);
      PowerPeriodic(a, p, k - 1, x);
    }
  }

}
