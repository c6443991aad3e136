/** Option and Result values used for the JavaScript code's `undefined`,
    `NaN` and error returns. */
module Wrappers {

  datatype Option<+T> = None | Some(value: T) {
    /** `o ?? d`: the value when present, the default otherwise. */
    function GetOr(default: T): T {
      match this
      case Some(v) => v
      case None => default
    }
  }

  datatype Result<+R, +E> = Success(value: R) | Failure(error: E)
}
