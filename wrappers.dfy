/** Optional values and error results used throughout the model. */
module Wrappers {

  /** A value that may be absent; stands for PHP's NULL-or-value fields. */
  datatype Option<+T> = None | Some(value: T)

  /** The outcome of an operation that can raise an exception instead of returning. */
  datatype Result<+R, +E> = Success(value: R) | Failure(error: E)

  /** The outcome of an operation that returns nothing but can raise an exception. */
  datatype Outcome<+E> = Pass | Fail(error: E)
}
