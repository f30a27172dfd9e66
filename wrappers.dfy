/** Result and outcome values standing in for the Java exceptions of the model. */
module Wrappers {

  /** The value an operation returns, or the argument error it throws instead. */
  datatype Result<+T, +E> = Success(value: T) | Failure(error: E)

  /** The completion of a void operation: normal return, or the error it throws. */
  datatype Outcome<+E> = Pass | Fail(error: E)
}
