/**
 * Failure-carrying values shared by the model: a dictionary lookup that may
 * miss (Option), an operation that returns a value or raises (Result), and an
 * operation that only succeeds or raises (Outcome).
 */
module Wrappers {

  datatype Option<+T> = None | Some(value: T) {
    /** Python's `d.get(key, default)` once the key is known present or absent. */
    function GetOr(default: T): T {
      match this
      case Some(v) => v
      case None => default
    }
  }

  /** A value, or the message of the exception raised instead. */
  datatype Result<+T, +E> = Success(value: T) | Failure(error: E)

  /** An action that completes, or fails with the text of its exception. */
  datatype Outcome = Pass | Fail(detail: string)
}
