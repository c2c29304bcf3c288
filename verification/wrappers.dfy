/** Optional values and results with an error, as the library's Swift code uses them. */
module Wrappers {

  /** A Swift optional: `nil` or a value. */
  datatype Option<+T> = None | Some(value: T) {

    /** The value, or `default` when there is none (Swift's `??`). */
    function GetOr(default: T): T {
      match this
      case Some(v) => v
      case None => default
    }
  }

  /** The outcome of a throwing call: the value it returns or the error it throws. */
  datatype Result<+T, +E> = Success(value: T) | Failure(error: E)
}
