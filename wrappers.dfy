/** Option and Result datatypes, and the errors the library can raise. */
module Wrappers {

  datatype Option<+T> = None | Some(value: T) {
    function GetOr(default: T): T {
      match this
      case Some(v) => v
      case None => default
    }
  }

  /** The Python exceptions the modelled code can raise. */
  datatype Error =
    | KeyError(key: string)           // a required dictionary key is missing
    | TypeError                       // `str + <non-str>` in the filter prefixing
    | ValueError(text: string)        // `float(text)` rejected a duration part
    | InvalidStatus(status: string)   // the envelope's status is not the literal "success"
    | AttributeError(name: string)    // `getattr` of a field the record does not have

  datatype Result<+T> = Success(value: T) | Failure(error: Error)
}
