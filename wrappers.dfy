/** Option and Result values standing in for Python's `None` returns and raised exceptions. */
module Wrappers {

  datatype Option<+T> = None | Some(value: T)

  /** The Python exception classes the modelled code raises, with the text `str(e)` gives. */
  datatype Exception =
    | ValueError(message: string)
    | KeyError(key: string)
    | IndexError(message: string)
    | TypeError(message: string)

  /** `Err(e)` is a call that raised `e`. */
  datatype Result<+T> = Ok(value: T) | Err(error: Exception)
}
