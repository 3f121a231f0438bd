/** Option and Result values shared by the model's modules, and the one
    Python exception class the modelled code raises. */
module Results {

  datatype Option<+T> = None | Some(value: T)

  /** A raised Python exception: its class and its message. */
  datatype Exception = ValueError(message: string)

  /** Either the value a call returns or the exception it raises. */
  datatype Result<+T> = Ok(value: T) | Err(error: Exception)
}
