/** Option and Result, the two failure-carrying wrappers the model uses. */
module Wrappers {

  /** A value that may be missing; stands for Go's nil map, nil slice and nil response. */
  datatype Option<+T> = None | Some(value: T)

  /** A value or an error message; stands for Go's `(T, error)` return pairs. */
  datatype Result<+T, +E> = Success(value: T) | Failure(error: E)
}
