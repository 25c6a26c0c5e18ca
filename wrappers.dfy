/** Option and Result: the interpreter's `undefined` and its thrown errors, as values. */
module Wrappers {

  /** `None` stands for JavaScript's `undefined` (an absent value or key). */
  datatype Option<+T> = None | Some(value: T) {

    function GetOr(default: T): T {
      match this
      case Some(v) => v
      case None => default
    }
  }

  /** The outcome of an operation that may throw. */
  datatype Result<+R, +E> = Success(value: R) | Failure(error: E)
}
