/** Option and Result: Go's nil pointers and (value, error) returns. */
module Wrappers {

  /** A Go pointer: `None` is nil. */
  datatype Option<+T> = None | Some(value: T)

  /** A Go `(value, error)` return. */
  datatype Result<+T, +E> = Success(value: T) | Failure(error: E)
}
