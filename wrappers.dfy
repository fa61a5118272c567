/** Option, Result and Outcome: the model's stand-ins for PHP NULL and for thrown
    exceptions. */
module Wrappers {

  datatype Option<+T> = None | Some(value: T)

  /** The value an operation returns, or the exception it throws. */
  datatype Result<+R, +E> = Success(value: R) | Failure(error: E) {
    function ToOutcome(): Outcome<E> {
      match this
      case Success(_) => Pass
      case Failure(e) => Fail(e)
    }
  }

  /** The result of an operation that returns nothing but may throw. */
  datatype Outcome<+E> = Pass | Fail(error: E)
}
