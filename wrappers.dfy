/** Failure-carrying datatypes shared by the model: an optional value, a value
    or an error, and a bare pass/fail outcome (Go's `error`, nil or not). */
module Wrappers {

  datatype Option<+T> = None | Some(value: T)

  datatype Result<+R, +E> = Success(value: R) | Failure(error: E)

  /** `Pass` is a nil Go `error`; `Fail(e)` a non-nil one. */
  datatype Outcome<+E> = Pass | Fail(error: E)
}
