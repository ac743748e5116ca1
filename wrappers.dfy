/** Failure-carrying results: the model's stand-in for the exceptions the system throws. */
module Wrappers {

  datatype Option<+T> = None | Some(value: T)

  /** A value, or the exception that replaced it. */
  datatype Result<+T, +E> = Success(value: T) | Failure(error: E)

  /** A void operation that either returned normally or threw `error`. */
  datatype Outcome<+E> = Pass | Fail(error: E)
}
