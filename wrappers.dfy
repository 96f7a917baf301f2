/** Failure-carrying values used in place of the source's exceptions and None returns. */
module Wrappers {

  datatype Option<+T> = None | Some(value: T)

  /** The value of a call that either returns normally or raises. */
  datatype Result<+T, +E> = Ok(value: T) | Err(error: E)

  /** The value of a call that returns nothing useful or raises. */
  datatype Outcome<+E> = Pass | Fail(error: E)
}
