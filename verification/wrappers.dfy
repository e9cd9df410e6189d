/** Failure-compatible wrappers used for Java's nullable values and thrown exceptions. */
module Wrappers {

  /** A Java reference that may be null (None) or hold a value. */
  datatype Option<+T> = None | Some(value: T)

  /** A computation that either yields a value or raises an error. */
  datatype Result<+R, +E> = Success(value: R) | Failure(error: E)
}
