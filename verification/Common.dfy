/** Small shared datatypes. */
module Common {
  datatype Option<+T> = None | Some(value: T)

  /** The outcome of an operation that the program ends with a value or an exception. */
  datatype Result<+T, +E> = Ok(value: T) | Err(error: E)
}
