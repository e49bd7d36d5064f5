/** Failure-carrying wrappers standing in for Java's null and exceptions. */
module Wrappers {

  /** A value that may be absent (a Java reference that may be null). */
  datatype Option<+T> = None | Some(value: T)

  /** A computed value, or the exception the Java code throws instead. */
  datatype Result<+R, +E> = Success(value: R) | Failure(error: E)

  /** A void Java call that either returns normally or throws. */
  datatype Outcome<+E> = Pass | Fail(error: E)
}
