/** Failure-carrying result types shared by the model. */
module Wrappers {

  datatype Option<+T> = None | Some(value: T)

  /** A Go `(T, error)` pair: either a value with a nil error, or a non-nil error. */
  datatype Result<+T> = Success(value: T) | Failure(error: string)

  /** A Go `error` return on its own: nil, or a non-nil error. */
  datatype Outcome = Pass | Fail(error: string)
}
