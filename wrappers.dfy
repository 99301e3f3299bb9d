/** Option and Result, and the Python exceptions the modelled code can raise. */
module Wrappers {

  datatype Option<+T> = None | Some(value: T)

  /** The exception classes that the modelled code raises or catches. */
  datatype PyError = KeyError | IndexError | TypeError | ValueError | NameError | AttributeError

  /** A call that either returns a value or raises. */
  datatype Result<+T> = Ok(value: T) | Raise(error: PyError)
}
