/** Failure-compatible wrappers used across the model: `Option` stands for a
    Java/TypeScript value that may be null or undefined, `Result` for a call that
    either returns a value or throws. */
module Wrappers {

  datatype Option<+T> = None | Some(value: T) {
    function GetOr(default: T): T {
      match this
      case Some(v) => v
      case None => default
    }
  }

  datatype Result<+T, +E> = Ok(value: T) | Err(error: E)
}
