/** Option and Result, the failure-carrying wrappers the model uses for
    Python's `None` and for calls that may raise. */
module Wrappers {

  datatype Option<+T> = None | Some(value: T)

  /** The outcome of a Python call that either returns a value or raises. */
  datatype Result<+T, +E> = Ok(value: T) | Fail(error: E)
}
