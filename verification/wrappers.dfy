/** Option and Result values used for the places where the source has
    an optional form field or raises an exception. */
module Wrappers {

  datatype Option<+T> = None | Some(value: T)

  datatype Result<+T, +E> = Success(value: T) | Failure(error: E)

  /** The Python exceptions the modelled expressions can raise. */
  datatype PyError =
    | IndexError       // a list index past the end
    | AttributeError   // an attribute the value does not have
}
