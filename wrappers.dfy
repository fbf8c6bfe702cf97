/** Failure-compatible wrappers: Go's nil pointers and nil errors become `None`. */
module Wrappers {

  datatype Option<+T> = None | Some(value: T) {

    /** The wrapped value, or `default` when there is none. */
    function GetOr(default: T): T {
      match this
      case Some(v) => v
      case None => default
    }
  }

  /** The two results of a Go call returning `(value, error)`. */
  datatype Result<+R, +E> = Success(value: R) | Failure(error: E)
}
