/** Optional values and results with an error payload. */
module Wrappers {

  /** A value that may be absent (`undefined` in the repository's code). */
  datatype Option<+T> = None | Some(value: T)

  /** Either a parsed value or a description of why it was rejected. */
  datatype Result<+T, +E> = Ok(value: T) | Err(error: E)
}
