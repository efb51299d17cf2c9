/** Failure-carrying wrappers shared by every module of the model. */
module Wrappers {

  /** A value that may be missing: Python's `None` or an absent key. */
  datatype Option<+T> = None | Some(value: T) {
    function GetOr(default: T): T {
      match this
      case Some(v) => v
      case None => default
    }
  }

  /** The outcome of an operation that raises in the source: `Err` carries the exception's message. */
  datatype Result<+T> = Ok(value: T) | Err(msg: string)
}
