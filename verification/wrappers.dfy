/** The option, outcome and result types shared by the modules of this model. */
module Wrappers {

  /** A value that may be missing (JavaScript's `undefined`). */
  datatype Option<+T> = None | Some(value: T) {

    /** The value, or `default` when it is missing. */
    function GetOr(default: T): T {
      match this
      case Some(v) => v
      case None => default
    }
  }

  /** The outcome of a call that either completes or throws an error with a message. */
  datatype Outcome = Pass | Fail(message: string)

  /** A call that returns a value or throws an error with a message. */
  datatype Result<+T> = Success(value: T) | Failure(message: string)
}
