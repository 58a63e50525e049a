/** Failure-compatible result types shared by the backup model. */
module Wrappers {

  datatype Option<+T> = None | Some(value: T)

  /** The result of a call that yields a value or an error (Go's `(T, error)` pair). */
  datatype Result<+T, +E> = Success(value: T) | Failure(error: E)

  /** The result of a call that yields only an error (Go's bare `error` return). */
  datatype Outcome<+E> = Pass | Fail(error: E)
}
