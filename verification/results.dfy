/** Failure-carrying datatypes used in place of the exceptions the game server raises. */
module Results {

  datatype Option<+T> = None | Some(value: T)

  /** A computation that produced a value, or raised an error. */
  datatype Result<+T, +E> = Success(value: T) | Failure(error: E)

  /** A check that either passed or raised an error. */
  datatype Outcome<+E> = Pass | Fail(error: E)
}
