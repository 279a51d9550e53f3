/** Optional values and the outcome of an operation that may raise. */
module Wrappers {

  datatype Option<+T> = None | Some(value: T)

  /** The Python exception classes the normalisation step can raise. */
  datatype Exception =
    | AttributeError  // `.get` or `.strip` called on a value that lacks it
    | TypeError       // `len` or `enumerate` applied to a value that is not a collection
    | ValueError      // `datetime.fromisoformat` rejected its argument, or a row has an undeclared column

  /** Either a value or the exception that was raised instead. */
  datatype Result<+T> = Ok(value: T) | Err(error: Exception)
}
