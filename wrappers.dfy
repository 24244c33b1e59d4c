/** Option and Result values shared by the modules of the model. */
module Wrappers {

  datatype Option<+T> = None | Some(value: T)

  /** The outcome of an operation that may raise; `error` is the exception text. */
  datatype Result<+T> = Ok(value: T) | Err(error: string)
}
