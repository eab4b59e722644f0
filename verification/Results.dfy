/** Outcomes of operations that the program reports by exception, by `false` or by a null pointer. */
module Results {
  datatype Option<+T> = None | Some(value: T)
  datatype Result<+T, +E> = Ok(value: T) | Err(error: E)
}
