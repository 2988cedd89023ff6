/** Values that may be absent, computations that may fail, and either as a number. */
module Wrappers {
  datatype Option<+T> = None | Some(value: T)

  datatype Result<+T, +E> = Ok(value: T) | Err(error: E)

  function One(b: bool): nat {
    if b then 1 else 0
  }

  function OrZero(x: Option<nat>): nat {
    if x.Some? then x.value else 0
  }
}
