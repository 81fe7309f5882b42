/** Option and Result wrappers shared by every module of the model. */
module Wrappers {

  /** An optional value: Python's `None` and JavaScript's `null` are `None`. */
  datatype Option<+T> = None | Some(value: T) {
    function GetOr(default: T): T {
      match this
      case Some(v) => v
      case None => default
    }
  }

  /** The outcome of an operation that can raise: `Failure` carries the error. */
  datatype Result<+R, +E> = Success(value: R) | Failure(error: E)
}
