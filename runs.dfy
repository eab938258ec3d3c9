/** Running a step function once per element of a sequence of inputs,
    stopping at the first step that throws. */
module Runs {
  import opened Wrappers

  function Run<S>(step: (S, nat) -> Option<S>, s: S, inputs: seq<nat>): Option<S>
    decreases inputs
  {
    if inputs == [] then Some(s)
    else match step(s, inputs[0])
      case None => None
      case Some(s') => Run(step, s', inputs[1..])
  }

  /** Running `a + b` is running `a`, then `b` from where `a` stopped. */
  lemma {:induction false} RunAppend<S>(step: (S, nat) -> Option<S>, s: S, a: seq<nat>, b: seq<nat>)
    ensures Run(step, s, a + b) == match Run(step, s, a) case None => None case Some(v) => Run(step, v, b)
    decreases a
  {
    if a != [] {
      assert (a + b)[0] == a[0];
      assert (a + b)[1..] == a[1..] + b;
      var st := step(s, a[0]);
      if st.Some? {
        RunAppend(step, st.value, a[1..], b);
      }
    } else {
      assert a + b == b;
    }
  }

  /** Four runs of `q` in a row make a run of `q + q + q + q`. */
  lemma RunFour<S>(step: (S, nat) -> Option<S>, s0: S, s1: S, s2: S, s3: S, s4: S, q: seq<nat>)
    requires Run(step, s0, q) == Some(s1) && Run(step, s1, q) == Some(s2)
    requires Run(step, s2, q) == Some(s3) && Run(step, s3, q) == Some(s4)
    ensures Run(step, s0, q + q + q + q) == Some(s4)
  {
    RunAppend(step, s0, q + q + q, q);
    RunAppend(step, s0, q + q, q);
    RunAppend(step, s0, q, q);
  }

}
