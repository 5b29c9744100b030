/** Optional values, outcomes and results shared by the other modules. */
module Wrappers {

  /** A value that may be missing; `None` stands for a null reference. */
  datatype Option<+T> = None | Some(value: T)

  /** The outcome of an operation that returns nothing but may throw. */
  datatype Outcome<+E> = Pass | Fail(error: E)

  /** The result of an operation that returns a value or throws. */
  datatype Result<+T, +E> = Success(value: T) | Failure(error: E)
}
