/** Failure-compatible helper types shared by every module of the model. */
module Wrappers {

  /** A value that may be absent: Python's `None`, JavaScript's `undefined`/`null`. */
  datatype Option<+T> = None | Some(value: T) {
    function GetOr(default: T): T {
      match this
      case Some(v) => v
      case None => default
    }
  }

  /** The outcome of an operation that can fail with a message. */
  datatype Result<+T> = Ok(value: T) | Err(error: string)
}
