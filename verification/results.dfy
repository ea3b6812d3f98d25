/** Failure-carrying results used across the model. */
module Results {

  /** Either a computed value or the reason the operation could not complete. */
  datatype Result<+T, +E> = Ok(value: T) | Err(error: E)

  /** An optional value; `None` is the C null pointer. */
  datatype Option<+T> = None | Some(value: T)

  /** A slot of C memory that may hold garbage because nothing wrote it yet. */
  datatype Cell<+T> = Unset | Set(value: T)
}
