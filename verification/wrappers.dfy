/** Failure-carrying values shared by the tool layer and the turn orchestration. */
module Wrappers {

  /** A value that may be absent: a missing dictionary key or JSON field. */
  datatype Option<+T> = None | Some(value: T) {

    /** The carried value, or `default` when absent (Python's `dict.get(key, default)`). */
    function GetOr(default: T): T {
      match this
      case Some(v) => v
      case None => default
    }
  }

  /** The outcome of a step that may raise: a value, or the error message it raised. */
  datatype Result<+R, +E> = Success(value: R) | Failure(error: E)
}
