/** Optional values and results with a JavaScript error message, used by every module. */
module Wrappers {

  datatype Option<+T> = None | Some(value: T) {
    function GetOr(default: T): T {
      match this
      case Some(v) => v
      case None => default
    }
  }

  /** The outcome of a step that may throw: its value, or the message of the thrown error. */
  datatype Result<+T> = Success(value: T) | Failure(error: string)
}
