/** Option, Result and Outcome: the nullable reference and the thrown exception of the source, as values. */
module Wrappers {

  /** A value that may be absent (a `null` reference in the source). */
  datatype Option<+T> = None | Some(value: T)

  /** The value of a call that may throw: `Failure` carries the exception. */
  datatype Result<+R, +E> = Success(value: R) | Failure(error: E)

  /** The outcome of a `void` call that may throw. */
  datatype Outcome<+E> = Pass | Fail(error: E)
}
