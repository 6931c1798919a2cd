/** Failure-carrying values, in place of Go's (value, error) pairs and nil values. */
module Wrappers {
  datatype Option<+T> = None | Some(value: T)

  datatype Result<+T, +E> = Ok(value: T) | Err(error: E)
}
