/** Option and Result: the two failure-carrying shapes the model uses. */
module Wrappers {

  /** A value that may be absent: JavaScript's `undefined` / `null` where the source uses `??` or `||`. */
  datatype Option<+T> = None | Some(value: T) {
    function GetOr(default: T): T {
      match this
      case Some(v) => v
      case None => default
    }
  }

  /** The outcome of a `safeParse`: the parsed value, or the error list. */
  datatype Result<+R, +E> = Success(value: R) | Failure(error: E)
}
