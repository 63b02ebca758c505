/** Small failure-carrying datatypes shared by the other modules. */
module Wrappers {

  /** A value that may be absent: the model's stand-in for the source's `null`. */
  datatype Option<+T> = None | Some(value: T)

  /** A computed value, or the error a `throw` in the source would raise. */
  datatype Result<+T, +E> = Ok(value: T) | Err(error: E)

  /** The outcome of an operation that either completes or raises an error. */
  datatype Outcome<+E> = Pass | Fail(error: E)
}
