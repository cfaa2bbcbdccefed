/** Option and Result values, and the Python exceptions the modelled code can raise. */
module Wrappers {

  datatype Option<+T> = None | Some(value: T) {
    function GetOr(default: T): T {
      match this
      case Some(v) => v
      case None => default
    }
  }

  /** A Python exception that escapes the modelled function or method. */
  datatype Error =
    | KeyError(key: string)          // a missing dictionary key
    | IndexError                      // `[0]` on an empty list
    | TypeError                       // iterating `None`, or a dictionary used as a key
    | AttributeError(attribute: string)
    | ValueError                      // malformed JSON text

  /** The value a Python call returns, or the exception it raises. */
  datatype Result<+T> = Ok(value: T) | Err(error: Error)
}
