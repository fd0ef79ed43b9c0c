/** Failure-carrying datatypes used in place of Java's null and thrown exceptions. */
module Wrappers {

  /** A value that may be absent: a Java reference that may be null. */
  datatype Option<+T> = None | Some(value: T)

  /** The outcome of a call that returns a value or throws `error`. */
  datatype Result<+T, +E> = Ok(value: T) | Err(error: E)

  /** The outcome of a call that returns nothing useful or throws `error`. */
  datatype Outcome<+E> = Pass | Fail(error: E)
}
