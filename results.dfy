/** JavaScript's `null` and thrown errors, made explicit as values. */
module Results {

  datatype Option<+T> = None | Some(value: T)

  /** The outcome of a call that may throw: `Err` carries what was thrown. */
  datatype Result<+T, +E> = Ok(value: T) | Err(error: E)
}
