/** The Option datatype: `None` stands for an operation of the cube algebra
    that throws (an argument or invariant check that fails). */
module Wrappers {

  datatype Option<+T> = None | Some(value: T)

}
