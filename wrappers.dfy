/** Failure-carrying return types shared by the modules of this project. */
module Wrappers {

  /** An optional value: Python's `None` or a value. */
  datatype Option<+T> = None | Some(value: T)

  /** The result of an operation that either returns a value or raises an error. */
  datatype Result<+R, +E> = Success(value: R) | Failure(error: E)

  /** The result of an operation that returns nothing or raises an error. */
  datatype Outcome<+E> = Pass | Fail(error: E)
}
