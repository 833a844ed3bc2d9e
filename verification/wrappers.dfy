/** Optional values and success-or-failure results, used throughout the model. */
module Wrappers {

  /** A value that may be absent (Python's `Optional[T]`, `None` when absent). */
  datatype Option<+T> = None | Some(value: T) {

    /** The wrapped value, or `default` when absent. */
    function GetOr(default: T): T {
      match this
      case Some(v) => v
      case None => default
    }
  }

  /** The answer of a collaborator that may fail with a message (an exception's `str(e)`). */
  datatype Result<+R, +E> = Success(value: R) | Failure(error: E)
}
