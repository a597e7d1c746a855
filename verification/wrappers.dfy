/** Failure-compatible wrappers used in place of the source's nulls and exceptions. */
module Wrappers {

  /** A value that may be absent: stands for a nullable reference. */
  datatype Option<+T> = None | Some(value: T)

  /** The value of an operation that returns something or throws. */
  datatype Result<+R, +E> = Success(value: R) | Failure(error: E)

  /** The outcome of an operation that returns nothing or throws. */
  datatype Outcome<+E> = Pass | Fail(error: E)
}
