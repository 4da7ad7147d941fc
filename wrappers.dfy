/** Failure-carrying values used in place of the source's null references and exceptions. */
module Wrappers {

  /** A value that may be absent: the model of a nullable reference. */
  datatype Option<+T> = None | Some(value: T)

  /** Either a value or an error: the model of a call that returns or throws. */
  datatype Result<+R, +E> = Success(value: R) | Failure(error: E)

  /** Either nothing or an error: the model of a `void` call that may throw. */
  datatype Outcome<+E> = Pass | Fail(error: E)
}
