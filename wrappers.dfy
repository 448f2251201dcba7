/** Failure-carrying value types shared by the other modules. */
module Wrappers {

  /** An optional value: a component slot that may still be unset. */
  datatype Option<+T> = None | Some(value: T) {
    /** The value in Some, or `default` when None. */
    function GetOr(default: T): T {
      match this
      case Some(v) => v
      case None => default
    }
  }

  /** A computed value or the error that was raised instead. */
  datatype Result<+R, +E> = Success(value: R) | Failure(error: E)

  /** Completion without a value: normal return or a raised error. */
  datatype Outcome<+E> = Pass | Fail(error: E)
}
