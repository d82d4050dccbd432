/**
 * Result and option types used across the model.  Python signals failure
 * by raising; the model returns `Err` with the exception class instead.
 */
module Wrappers {

  datatype Option<T> = None | Some(value: T)

  /** The Python exception classes the modelled code raises. */
  datatype Error =
    | KeyError
    | ValueError
    | RuntimeError
    | TypeError
    | IndexError
    | AttributeError
    | ValidationError  // pydantic's `validate_arguments` rejecting an argument

  datatype Result<T> = Ok(value: T) | Err(error: Error)
}
