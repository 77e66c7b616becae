/** Optional values (`undefined` in the source) and thrown errors as values. */
module Wrappers {

  /** A value that may be `undefined` (or `null`, which the source treats alike). */
  datatype Option<+T> = None | Some(value: T) {

    /** The `a ?? b` operator: the value when present, otherwise the default. */
    function GetOr(default: T): T {
      match this
      case Some(v) => v
      case None => default
    }
  }

  /** The outcome of a computation that may throw. */
  datatype Result<+R, +E> = Success(value: R) | Failure(error: E)
}
