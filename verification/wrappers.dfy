/** Small failure-compatible datatypes shared by every module of the model. */
module Wrappers {

  /** A value that may be absent (Python's `None`). */
  datatype Option<+T> = None | Some(value: T) {
    function GetOr(default: T): T {
      match this
      case Some(v) => v
      case None => default
    }
  }

  /** The result of a Python call that either returns a value or raises an
      exception; the exception is kept as its message (`str(e)`). */
  datatype Outcome<+T> = Ok(value: T) | Raised(error: string)
}
