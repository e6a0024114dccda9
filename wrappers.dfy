/** Optional values and outcomes, used throughout the model: `Option` stands for a
    JavaScript value that may be `null`/`undefined`, `Result` for a call that
    either returns a value or throws. */
module Wrappers {

  datatype Option<+T> = None | Some(value: T) {
    /** The value, or `default` when absent (JavaScript's `x ?? default`). */
    function GetOr(default: T): T {
      match this
      case Some(v) => v
      case None => default
    }
  }

  datatype Result<+T, +E> = Success(value: T) | Failure(error: E)
}
