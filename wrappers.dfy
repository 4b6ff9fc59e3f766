/** Option and Result: JavaScript's `null`/missing values and thrown errors. */
module Wrappers {

  /** A value that may be absent (`null`, `undefined` or a missing attribute). */
  datatype Option<+T> = None | Some(value: T) {
    function GetOr(default: T): T {
      match this
      case Some(v) => v
      case None => default
    }
  }

  /** The outcome of an operation that may throw. */
  datatype Result<+T, +E> = Ok(value: T) | Err(error: E)
}
