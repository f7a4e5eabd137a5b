/** Optional values and error returns, used where the source returns None or raises. */
module Wrappers {

  /** Python's `None` or a value. */
  datatype Option<+T> = None | Some(value: T)

  /** A value, or the exception that an operation raises instead. */
  datatype Result<+T, +E> = Success(value: T) | Failure(error: E)

  /** The outcome of an operation that returns nothing, or raises. */
  datatype Outcome<+E> = Pass | Fail(error: E)
}
