/** Failure-compatible wrappers used throughout the model. A Java reference that may be
    null is an Option; a Java method that may throw is a Result or an Outcome. */
module Wrappers {

  /** A value that may be absent (a nullable Java reference). */
  datatype Option<+T> = None | Some(value: T)

  /** A computed value or the exception that replaced it. */
  datatype Result<+R, +E> = Success(value: R) | Failure(error: E)

  /** Normal completion of a void Java method, or the exception it threw. */
  datatype Outcome<+E> = Pass | Fail(error: E)
}
