/** Failure-compatible wrappers standing for Java's nullable values and thrown exceptions. */
module Wrappers {

  /** A Java reference that may be null: `None` is null. */
  datatype Option<+T> = None | Some(value: T)

  /** A Java call that either returns a value or throws. */
  datatype Result<+T, +E> = Ok(value: T) | Err(error: E)

  /** A Java `void` call that either completes or throws. */
  datatype Outcome<+E> = Pass | Fail(error: E)
}
