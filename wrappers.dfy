/** Failure-carrying results shared by the model's modules. */
module Wrappers {

  /** An optional value: Python's `Optional[T]`, or a key that may be absent. */
  datatype Option<+T> = None | Some(value: T) {
    function GetOr(default: T): T {
      match this
      case Some(v) => v
      case None => default
    }
  }

  /** A handler's outcome: the value it returns, or the error it raises. */
  datatype Result<+R, +E> = Success(value: R) | Failure(error: E)
}
