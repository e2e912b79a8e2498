/** Failure-carrying wrappers used by the model: an optional value and a
    success-or-error result (the program's `Environment.Exit` paths become `Err`). */
module Results {

  datatype Option<+T> = None | Some(value: T)

  datatype Result<+T, +E> = Ok(value: T) | Err(error: E)
}
