/** Optional values and results with an error, used throughout the model. */
module Wrappers {

  /** A value that may be absent: Go's nil pointer, nil slice or nil map. */
  datatype Option<+T> = None | Some(value: T) {
    /** The value, or `default` when absent (Go's zero value after a failed type assertion). */
    function GetOr(default: T): T {
      match this
      case Some(v) => v
      case None => default
    }
  }

  /** The outcome of an operation that returns a value or an error. */
  datatype Result<+T, +E> = Success(value: T) | Failure(error: E)
}
