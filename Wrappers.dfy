/** Option and Result: the absent values and thrown errors of the modelled code. */
module Wrappers {

  /** A value that may be absent (`null`/`undefined` in the modelled code). */
  datatype Option<+T> = None | Some(value: T) {
    function GetOr(default: T): T {
      match this
      case Some(v) => v
      case None => default
    }
  }

  /** The outcome of an operation that may throw: a value, or the error it throws. */
  datatype Result<+T, +E> = Success(value: T) | Failure(error: E) {
    function ToOption(): Option<T> {
      match this
      case Success(v) => Some(v)
      case Failure(_) => None
    }
  }
}
