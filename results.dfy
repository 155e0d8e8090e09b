/** The error-or-value type the model uses wherever the script raises an exception. */
module Results {

  datatype Result<+T, +E> = Ok(value: T) | Err(error: E)

}
