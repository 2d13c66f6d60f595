/** Optional values and results: `undefined`-or-value fields and caught exceptions of the scripts. */
module Wrappers {

  /** A value that may be absent (JavaScript `undefined`). */
  datatype Option<+T> = None | Some(value: T) {

    /** The value, or `default` when absent. */
    function GetOr(default: T): T {
      match this
      case Some(v) => v
      case None => default
    }
  }

  /** The outcome of a call that may throw: a value, or the error it threw. */
  datatype Result<+T, +E> = Success(value: T) | Failure(error: E)
}
