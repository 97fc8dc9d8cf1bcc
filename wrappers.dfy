/** Option and Result, the two wrappers the model uses for Python's
    `None` and for raised exceptions. */
module Wrappers {

  /** `None` or a value. */
  datatype Option<+T> = None | Some(value: T)

  /** A value, or the text of the exception the Python code raises
      (`str(e)`, as FastMCP reports it to the caller). */
  datatype Result<+T> = Ok(value: T) | Err(message: string)
}
