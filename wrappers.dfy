/** Option and Result, the two failure-carrying values the rest of the model returns. */
module Wrappers {

  /** Python's `None` or a present value. */
  datatype Option<+T> = None | Some(value: T)

  /** A normal return (`Ok`) or a raised exception (`Err`). */
  datatype Result<+T, +E> = Ok(value: T) | Err(error: E)
}
