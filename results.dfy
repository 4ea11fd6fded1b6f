/** Option and Result values used throughout the model for the Go
    "value, error" return convention. */
module Results {

  datatype Option<+T> = None | Some(value: T)

  datatype Result<+T, +E> = Ok(value: T) | Err(error: E)
}
