/** Failure-aware return values used in place of PHP exceptions. */
module Wrappers {

  datatype Option<T> = None | Some(value: T)

  /** The value of an operation that either produces a result or fails with an error. */
  datatype Result<T, E> = Success(value: T) | Failure(error: E)

  /** The value of an operation that produces nothing or fails with an error. */
  datatype Outcome<E> = Pass | Fail(error: E)
}
