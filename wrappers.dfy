/** Failure-carrying results used throughout the model: Go's `(T, error)` pairs
    and bare `error` returns. */
module Wrappers {

  datatype Option<+T> = None | Some(value: T)

  /** A value or an error, as a Go function returning `(T, error)`. */
  datatype Result<+T, +E> = Success(value: T) | Failure(error: E)

  /** A bare Go `error`: `Pass` is `nil`. */
  datatype Outcome<+E> = Pass | Fail(error: E)
}
