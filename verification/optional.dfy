/** Optional values and results: `null`-or-value fields and thrown errors of the tutoring server. */
module Optional {

  /** A value that may be absent (`null` in the JavaScript source). */
  datatype Option<+T> = None | Some(value: T)

  /** An operation that either yields a value or throws an error. */
  datatype Result<+T, +E> = Ok(value: T) | Err(error: E)
}
