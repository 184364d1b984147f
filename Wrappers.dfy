/** Optional values and results with an error alternative, standing for
    Python's `None` default arguments and raised exceptions. */
module Wrappers {

  /** A value that may be absent, as a keyword argument defaulting to `None`. */
  datatype Option<+T> = None | Some(value: T)

  /** The outcome of a call that either returns a value or raises an error. */
  datatype Result<+T, +E> = Ok(value: T) | Err(error: E)
}
