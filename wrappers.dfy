/** Option and Result, used where the source returns None or raises. */
module Wrappers {

  datatype Option<+T> = None | Some(value: T) {
    function GetOr(default: T): T {
      match this
      case Some(v) => v
      case None => default
    }
  }

  /** Outcome of an operation that either produces a value or raises in the source. */
  datatype Result<+T> = Ok(value: T) | Raised(reason: string)
}
