/** Failure-carrying values shared by the rest of the model. */
module Wrappers {

  /** A value that may be absent: a missing dictionary key, a list index out of range. */
  datatype Option<+T> = None | Some(value: T)

  /** A computation that either produced a value or stopped with an error. */
  datatype Result<+T, +E> = Ok(value: T) | Err(error: E)
}
