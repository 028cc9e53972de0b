/** Failure-carrying values shared by every module: Go's `(T, error)` pairs and
    nil references become these. */
module Wrappers {

  /** A value that may be absent (a nil reference, a nil error). */
  datatype Option<+T> = None | Some(value: T)

  /** Either a value or an error message (Go's `(T, error)` with exactly one of them set). */
  datatype Result<+R, +E> = Success(value: R) | Failure(error: E)
}
