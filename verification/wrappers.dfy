/** Failure-compatible helper datatypes used across the model. */
module Wrappers {

  /** A value that may be absent; stands for the source's `null`. */
  datatype Option<+T> = None | Some(value: T)

  /** The outcome of an operation that may reject (a thrown error). */
  datatype Result<+T> = Success(value: T) | Failure
}
