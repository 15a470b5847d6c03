/** Failure-carrying values used across the model: a dictionary lookup that may
    miss, and a computation that may raise. */
module Wrappers {

  /** A value that may be absent (a missing dictionary key, a Python `None`). */
  datatype Option<T> = None | Some(value: T) {

    /** The value, or `default` when absent (Python's `d.get(key, default)`). */
    function GetOr(default: T): T {
      match this
      case Some(v) => v
      case None => default
    }
  }

  /** The outcome of a computation that either returns or raises. */
  datatype Result<T, E> = Ok(value: T) | Err(error: E)
}
