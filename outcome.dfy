/** The two ways an operation of the dashboard can end without a value. */
module Outcome {
  datatype Option<T> = None | Some(value: T)

  datatype Result<T, E> = Ok(value: T) | Err(error: E)
}
