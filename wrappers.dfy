/** Optional values and success/failure results, standing in for JavaScript's
    `undefined`/`null` and for thrown exceptions. */
module Wrappers {

  datatype Option<+T> = None | Some(value: T)

  /** The outcome of a computation that either yields a value or throws. */
  datatype Result<+R, +E> = Success(value: R) | Failure(error: E)

  /** The outcome of a computation run for its effect only. */
  datatype Outcome<+E> = Pass | Fail(error: E)
}
