/** Outcome of an operation that may raise, as the models' RuntimeError does. */
module Wrappers {

  /** The only failure the models raise: a RuntimeError with its message. */
  datatype Error = RuntimeError(message: string)

  datatype Result<+T> = Ok(value: T) | Err(error: Error)

  datatype Option<+T> = None | Some(value: T)
}
