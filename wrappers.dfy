/** Option and Result, the two failure-carrying datatypes the rest of the model uses. */
module Wrappers {

  /** Go's `(value, ok)` pairs and nullable values. */
  datatype Option<+T> = None | Some(value: T)

  /** Go's `(value, error)` pairs: a value when the error is nil, otherwise the error. */
  datatype Result<+T, +E> = Ok(value: T) | Err(error: E)
}
