/** Option and Result, used for nullable database reads and for thrown errors. */
module Wrappers {

  datatype Option<+T> = None | Some(value: T) {
    /** The `??` / `||` defaulting of the source: the value when present, else `default`. */
    function GetOr(default: T): T {
      match this
      case Some(v) => v
      case None => default
    }
  }

  /** `Failure(msg)` stands for an exception thrown with message `msg`. */
  datatype Result<+R, +E> = Success(value: R) | Failure(error: E)
}
