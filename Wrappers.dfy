/** Option and Result: Go's `(value, error)` pairs and nil references, as values. */
module Wrappers {

  /** A value that may be absent (a Go nil reference or a missing field). */
  datatype Option<+T> = None | Some(value: T)

  /** Either a value or an error, never both and never neither: Go's `(*T, error)` results. */
  datatype Result<+T, +E> = Success(value: T) | Failure(error: E)
}
