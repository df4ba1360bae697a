/** Option and Result, used wherever the system returns "undefined" or throws. */
module Wrappers {

  datatype Option<+T> = None | Some(value: T) {
    function GetOr(default: T): T {
      match this
      case Some(v) => v
      case None => default
    }
  }

  /** Success carries the value; Failure carries the message the source throws. */
  datatype Result<+R> = Success(value: R) | Failure(error: string)
}
