/** Option and Result, the two wrappers the model uses for Python's `None` and its exceptions. */
module Wrappers {

  datatype Option<+T> = None | Some(value: T) {
    /** The wrapped value, or `default` for None (Python's `x or default` on a nullable column). */
    function GetOr(default: T): T {
      match this
      case Some(v) => v
      case None => default
    }
  }

  /** A value or the exception that was raised instead of producing it. */
  datatype Result<+R, +E> = Success(value: R) | Failure(error: E)
}
