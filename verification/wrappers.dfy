/** Optional values and success/failure results shared by every module. */
module Wrappers {

  /** A value that may be absent: a missing dictionary key or a `None`. */
  datatype Option<+T> = None | Some(value: T) {

    /** The carried value, or `default` when absent. */
    function GetOr(default: T): T {
      match this
      case Some(v) => v
      case None => default
    }
  }

  /** The outcome of an operation that may raise in the original program. */
  datatype Result<+R, +E> = Success(value: R) | Failure(error: E)
}
