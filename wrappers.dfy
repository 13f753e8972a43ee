/** Option and Result values shared by the other modules. */
module Wrappers {

  /** A value that may be missing: a JSON field that is absent or null. */
  datatype Option<+T> = None | Some(value: T) {
    function GetOr(default: T): T {
      match this
      case Some(v) => v
      case None => default
    }
  }

  /** The outcome of a computation that may throw: `Err` carries the message. */
  datatype Result<+T> = Ok(value: T) | Err(message: string)
}
