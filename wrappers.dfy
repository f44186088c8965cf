/** Option and Result, used for values that may be absent and for Python
    exceptions that the upload handler lets propagate. */
module Wrappers {

  datatype Option<+T> = None | Some(value: T) {

    /** The value, or `default` when absent. */
    function GetOr(default: T): T {
      match this
      case Some(v) => v
      case None => default
    }
  }

  /** `Err` stands for an exception raised by a call; its message is kept. */
  datatype Result<+T, +E> = Ok(value: T) | Err(error: E)
}
