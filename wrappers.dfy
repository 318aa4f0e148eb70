/** Failure-carrying values shared by every module of the model. */
module Wrappers {

  /** A nullable reference or an absent JSON field. */
  datatype Option<+T> = None | Some(value: T) {
    function GetOr(default: T): T {
      match this
      case Some(v) => v
      case None => default
    }
  }

  /** The outcome of an operation that returns a value or throws. The error
      carries the exception message the source would raise. */
  datatype Result<+T> = Ok(value: T) | Err(error: string)

  /** The outcome of an operation that returns nothing or throws. */
  datatype Outcome = Pass | Fail(error: string)
}
