/** Small wrappers shared by the other modules. */
module Common {

  /** A value that may be absent. */
  datatype Option<T> = None | Some(value: T)

  /** The outcome of an operation that raises an exception on bad input. */
  datatype Result<T> = Ok(value: T) | Err(message: string)
}
