/** Option and Result values used for the source's `(value, ok)` and `(value, error)` returns. */
module Wrappers {

  datatype Option<+T> = None | Some(value: T)

  datatype Result<+T, +E> = Success(value: T) | Failure(error: E)

  /** A pass/fail outcome carrying only an error, for operations with no result value. */
  datatype Outcome<+E> = Pass | Fail(error: E)
}
