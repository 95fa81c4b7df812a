/** The error returns that stand in for the exceptions and rejected promises of the wallet. */
module Wrappers {

  datatype Option<+T> = None | Some(value: T)

  datatype Result<+T, +E> = Success(value: T) | Failure(error: E)

  /** A result without a value: the operation either completed or failed with an error. */
  datatype Outcome<+E> = Pass | Fail(error: E)
}
