/** The exceptions the modelled Python code can raise, and the result wrappers
    that carry them instead of raising. */
module Errors {

  /** The Python exception kinds the core can raise. */
  datatype Error =
    | KeyError(key: string)           // a dictionary lookup on a missing key
    | IndexError                      // a list index past the end
    | UnboundLocalError(name: string) // a local read before any assignment
    | ZeroDivisionError               // a float division by zero

  datatype Option<T> = None | Some(value: T)

  datatype Result<T> = Ok(value: T) | Err(error: Error)
}
