/** Option and Result, the two failure-carrying datatypes used throughout the model. */
module Wrappers {

  /** A value that may be absent: `undefined`/`null` in the source. */
  datatype Option<+T> = None | Some(value: T)

  /** The outcome of an operation that can throw or reject: `Failure` carries the message. */
  datatype Result<+R, +E> = Success(value: R) | Failure(error: E)
}
