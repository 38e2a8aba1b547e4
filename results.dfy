/** Success or failure of an operation that can be refused. */
module Results {
  datatype Result<T, E> = Ok(value: T) | Err(error: E)
}
