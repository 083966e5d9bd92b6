/** Small failure-carrying datatypes shared by the other modules. */
module Wrappers {

  /** A value that may be missing (TypeScript's `T | undefined`). */
  datatype Option<+T> = None | Some(value: T) {
    function GetOr(default: T): T {
      match this
      case Some(v) => v
      case None => default
    }
  }

  /** The outcome of an operation that may throw: `Failure` carries the error message. */
  datatype Result<+R> = Success(value: R) | Failure(error: string)
}
