/**
 * Optional values and results: TypeScript's `undefined` and thrown
 * exceptions, made explicit.
 */
module Wrappers {

  /** `undefined` (None) or a present value (Some). */
  datatype Option<+T> = None | Some(value: T) {

    /** The value, or `default` when absent (TypeScript's `??`). */
    function GetOr(default: T): T {
      match this
      case Some(v) => v
      case None => default
    }
  }

  /** A returned value (Success) or a thrown error (Failure). */
  datatype Result<+R, +E> = Success(value: R) | Failure(error: E)
}
