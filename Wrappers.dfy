/** Option and Result, the failure-carrying values used throughout the model. */
module Wrappers {

  /** A C pointer that may be NULL, or a value that may be absent. */
  datatype Option<+T> = None | Some(value: T)

  /** The outcome of an operation that can fail with an error of type E. */
  datatype Result<+T, +E> = Ok(value: T) | Err(error: E)
}
