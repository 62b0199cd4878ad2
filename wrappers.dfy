/** Option and Result values used across the model in place of `undefined`/`null` and thrown errors. */
module Wrappers {

  /** A value that may be missing: `undefined` or `null` in the source. */
  datatype Option<+T> = None | Some(value: T) {
    function GetOr(default: T): T {
      match this
      case Some(v) => v
      case None => default
    }
  }

  /** The outcome of an operation that either returns a value or throws an error. */
  datatype Result<+R, +E> = Success(value: R) | Failure(error: E)
}
