/** Failure-carrying wrappers used throughout the model: JavaScript's `undefined`
    becomes `None`, a thrown error becomes `Failure`. */
module Wrappers {

  datatype Option<+T> = None | Some(value: T) {
    function GetOr(default: T): T {
      match this
      case Some(v) => v
      case None => default
    }
  }

  datatype Result<+T, +E> = Success(value: T) | Failure(error: E)

  /** The outcome of an operation that yields nothing on success (a `Promise<void>`). */
  datatype Outcome<+E> = Pass | Fail(error: E)
}
