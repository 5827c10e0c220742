module Wrappers {
  datatype Option<+T> = None | Some(value: T)

  /** The exceptions the services raise, as values. */
  datatype Error =
    | NotFound(code: string)
    | Conflict(code: string)
    | BadRequest(code: string)
    | PythonError  // an uncaught TypeError, ValueError or ZeroDivisionError

  datatype Result<+T> = Ok(value: T) | Err(error: Error)
}
