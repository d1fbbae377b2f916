/** Optional values and success/failure results shared by the whole model. */
module Wrappers {

  /** A value that may be absent: an optional field in TypeScript, `None` in Python. */
  datatype Option<+T> = None | Some(value: T) {

    /** The value when present, `default` otherwise (JavaScript `x ?? default`). */
    function GetOr(default: T): T {
      match this
      case Some(v) => v
      case None => default
    }
  }

  /** The outcome of an operation that can fail with an error value. */
  datatype Result<+R, +E> = Success(value: R) | Failure(error: E)
}
