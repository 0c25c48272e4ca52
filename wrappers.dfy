/** Option, Result and Outcome values used for the store's error paths. */
module Wrappers {

  datatype Option<+T> = None | Some(value: T)

  /** The value of a statement or query, or the error it raised. */
  datatype Result<+R, +E> = Success(value: R) | Failure(error: E)

  /** The outcome of a statement that returns nothing. */
  datatype Outcome<+E> = Pass | Fail(error: E)
}
