/** Optional values and success/failure results, as the Go code expresses them with
    nil references and (value, error) pairs. */
module Wrappers {

  /** A reference that may be nil. */
  datatype Option<+T> = None | Some(value: T)

  /** A Go `(T, error)` pair where exactly one side is meaningful. */
  datatype Result<+T, +E> = Success(value: T) | Failure(error: E)

  /** A Go `error` return on its own: nil (`Pass`) or an error value. */
  datatype Outcome<+E> = Pass | Fail(error: E)
}
