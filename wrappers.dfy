/** Result types standing for the exceptions the scripts raise. */
module Wrappers {

  datatype Option<+T> = None | Some(value: T)

  /** A computation that either yields a value or raises an error. */
  datatype Result<+T, +E> = Success(value: T) | Failure(error: E)

  /** A computation run for its effect that either completes or raises an error. */
  datatype Outcome<+E> = Pass | Fail(error: E)
}
