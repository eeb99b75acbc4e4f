/** Option and Result, the failure-carrying values the rest of the model returns. */
module Wrappers {

  /** A value that may be absent: JavaScript's `undefined` next to a present value. */
  datatype Option<+T> = None | Some(value: T) {

    /** The `??` operator: the value when present, otherwise `default`. */
    function GetOr(default: T): T {
      match this
      case Some(v) => v
      case None => default
    }
  }

  /** The value a JavaScript call returns, or what it throws. */
  datatype Result<+R, +E> = Success(value: R) | Failure(error: E)
}
