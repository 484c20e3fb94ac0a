/** Option and Result values shared by every module of the model. */
module Wrappers {

  /** Kotlin's nullable `T?`: `None` is `null`. */
  datatype Option<+T> = None | Some(value: T) {
    function GetOr(default: T): T {
      match this
      case Some(v) => v
      case None => default
    }
  }

  /** The outcome of a call that may throw: `Err` carries the exception's message. */
  datatype Result<+T, +E> = Ok(value: T) | Err(error: E)
}
