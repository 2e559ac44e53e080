/** Optional values and results with an error payload. */
module Wrappers {

  /** A value that may be missing: an absent key, or a JavaScript `null`. */
  datatype Option<+T> = None | Some(value: T)

  /** The outcome of a parse: the typed value, or what went wrong. */
  datatype Result<+T, +E> = Ok(value: T) | Err(error: E)
}
