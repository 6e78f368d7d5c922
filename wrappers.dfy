/** Option and Result: the model's stand-ins for Kotlin's nullable types and thrown exceptions. */
module Wrappers {

  datatype Option<+T> = None | Some(value: T) {
    /** Kotlin's `x ?: default`. */
    function GetOr(default: T): T {
      match this
      case Some(v) => v
      case None => default
    }
  }

  datatype Result<+R, +E> = Success(value: R) | Failure(error: E)
}
