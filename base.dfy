/** Failure-carrying values shared by every module of the model. */
module Base {

  datatype Option<T> = None | Some(value: T)

  /** The Python exceptions that the modelled code raises or lets escape. */
  datatype PyError =
    | KeyError(key: string)
    | IndexError
    | ValueError(reason: string)
    | TypeError(reason: string)
    | AttributeError(name: string)
    | RetryError

  /** A value, or the exception raised instead of returning it. */
  datatype Result<T> = Ok(value: T) | Err(error: PyError)
}
