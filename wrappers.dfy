/** Optional values and success/failure results, standing in for java.util.Optional and thrown exceptions. */
module Wrappers {

  /** An optional value: `java.util.Optional` in the service's signatures. */
  datatype Option<+T> = None | Some(value: T)

  /** A value or the message of the exception that was thrown instead. */
  datatype Result<+T> = Success(value: T) | Failure(message: string)

  /** Success, or failure with a message: the verdict of a check, or a call that returns nothing or throws. */
  datatype Outcome = Pass | Fail(message: string)
}
