/** Failure-carrying values shared by the modules of this model. */
module Wrappers {

  /** A value that may be absent: a Java `null`, a missing map entry, a missing object. */
  datatype Option<+T> = None | Some(value: T)

  /** The outcome of an operation that either produces a value or raises an error. */
  datatype Result<+T, +E> = Success(value: T) | Failure(error: E)
}
