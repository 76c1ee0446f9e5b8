/** Wrappers used across the model: `Option` stands for the
    source's nullable values (`T | null`, `T | undefined`), `Result` for a call
    that either returns a value or throws an error with a message. */
module Wrappers {

  datatype Option<+T> = None | Some(value: T) {

    /** The wrapped value, or `default` when there is none. */
    function GetOr(default: T): T {
      match this
      case Some(v) => v
      case None => default
    }
  }

  datatype Result<+T, +E> = Ok(value: T) | Err(error: E)
}
