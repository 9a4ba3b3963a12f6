/** Optional values and the error paths of the modelled operations: Python's
    `None` and raised exceptions become values of these types. */
module Wrappers {

  datatype Option<+T> = None | Some(value: T)

  /** The value a call returns, or the exception it raises. */
  datatype Result<+T, +E> = Success(value: T) | Failure(error: E)

  /** The outcome of a call that returns nothing (Python's `None`) or raises. */
  datatype Outcome<+E> = Pass | Fail(error: E)
}
