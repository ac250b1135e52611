/** An optional value and a value-or-error result, used throughout the
    model. */
module Wrappers {

  /** A value that may be absent (Go's `value, ok` pairs). */
  datatype Option<+T> = None | Some(value: T)

  /** Either a value or an error (Go's `value, err` pairs). */
  datatype Result<+T, +E> = Success(value: T) | Failure(error: E)
}
