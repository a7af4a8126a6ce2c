/** Failure-compatible wrappers shared by the model: an optional value and a
    success-or-error result, standing in for Python's `None` and raised
    exceptions respectively. */
module Wrappers {

  datatype Option<+T> = None | Some(value: T) {

    /** The value held, or `default` when there is none. */
    function GetOr(default: T): T {
      match this
      case Some(v) => v
      case None => default
    }
  }

  datatype Result<+R, +E> = Success(value: R) | Failure(error: E)
}
