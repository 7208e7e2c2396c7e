/** Failure-carrying values shared by the rotation engine and the token signer:
    `Option` for JavaScript's null/undefined, `Result` and `Outcome` for calls
    that either return or throw. */
module Wrappers {

  datatype Option<+T> = None | Some(value: T)

  datatype Result<+R, +E> = Success(value: R) | Failure(error: E)

  /** The outcome of an awaited call that returns nothing: it resolves or it throws. */
  datatype Outcome<+E> = Pass | Fail(error: E)
}
