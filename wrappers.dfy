/** The two failure-carrying shapes used throughout the model. */
module Wrappers {

  /** A value that may be absent: `undefined`/`null` in the source. */
  datatype Option<+T> = None | Some(value: T)

  /** The outcome of an operation that either completes or throws. */
  datatype Result<+T, +E> = Ok(value: T) | Err(error: E)
}
