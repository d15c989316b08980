/** The usual optional value, in place of null, and the outcome of a call that may throw. */
module Options {
  datatype Option<+T> = None | Some(value: T)

  datatype Result<+T, +E> = Ok(value: T) | Err(error: E)
}
