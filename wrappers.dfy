/** Option, Result and Outcome values used in place of PHP's null and exceptions. */
module Wrappers {

  datatype Option<+T> = None | Some(value: T) {
    function GetOr(default: T): T {
      match this
      case Some(v) => v
      case None => default
    }
  }

  datatype Result<+R, +E> = Success(value: R) | Failure(error: E)

  /** The outcome of a PHP method that returns nothing useful or throws. */
  datatype Outcome<+E> = Pass | Fail(error: E)
}
