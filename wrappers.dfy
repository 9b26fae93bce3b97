/** Optional values and results with an error, as used throughout the model. */
module Wrappers {

  /** A value that may be absent; which JavaScript values `None` stands for is said where an `Option` is used. */
  datatype Option<+T> = None | Some(value: T) {

    /** The value, or `default` when absent: destructuring's `x = default`, which replaces only `undefined`. */
    function GetOr(default: T): T
    {
      match this
      case Some(v) => v
      case None => default
    }
  }

  /** A successful value, or the error a thrown exception carries. */
  datatype Result<+R, +E> = Success(value: R) | Failure(error: E)
}
