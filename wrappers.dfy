/** Option and Result, and the Python exceptions the modelled code can raise. */
module Wrappers {

  datatype Option<+T> = None | Some(value: T)

  /** The exception classes that the modelled Python code can raise on badly shaped input. */
  datatype PyError = TypeError | AttributeError | KeyError

  /** The value of a Python computation, or the exception that it raised. */
  datatype Result<+T> = Ok(value: T) | Err(error: PyError)
}
