/** Failure-compatible wrappers used across the model.
    - Option<T> stands for a JavaScript value that may be `null` or `undefined`.
    - Result<T, E> stands for an awaited promise: it resolves with a value or rejects with an error.
 */
module Wrappers {

  datatype Option<+T> = None | Some(value: T) {

    /** Returns the value, or `default` when absent (the `x ?? default` idiom). */
    function GetOr(default: T): T {
      match this
      case Some(v) => v
      case None => default
    }
  }

  datatype Result<+T, +E> = Success(value: T) | Failure(error: E) {

    /** Forgets the error, keeping only whether a value arrived. */
    function ToOption(): Option<T> {
      match this
      case Success(v) => Some(v)
      case Failure(_) => None
    }
  }
}
