/** Failure-carrying values shared by every module of the model. */
module Wrappers {

  datatype Option<+T> = None | Some(value: T)

  /** A raised Python exception: its class name and the text `str(e)` gives. */
  datatype Exception = Exception(kind: string, message: string)

  /** The value a Python call returns, or the exception it raises. */
  datatype Result<+T> = Ok(value: T) | Err(error: Exception)
}
