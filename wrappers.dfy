/** Failure-compatible wrappers shared by every module of the model. */
module Wrappers {

  datatype Option<+T> = None | Some(value: T)

  /** A computation that either yields a value or raises the given exception. */
  datatype Result<+T, +E> = Ok(value: T) | Err(error: E)
}
