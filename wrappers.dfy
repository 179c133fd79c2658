/** Option and Result, the carriers for Python's None and for a raised exception. */
module Wrappers {

  datatype Option<+T> = None | Some(value: T) {
    function GetOr(default: T): T {
      match this
      case Some(v) => v
      case None => default
    }
  }

  /** A Python call either returns a value or raises; `Failure` carries the text of `str(e)`. */
  datatype Result<+T, +E> = Success(value: T) | Failure(error: E)
}
