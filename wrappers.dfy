/** Option and Result values used where the library either returns nothing or raises. */
module Wrappers {

  datatype Option<+T> = None | Some(value: T)

  /** The outcome of a call that may raise: `Err` carries the exception object. */
  datatype Result<+T, +E> = Ok(value: T) | Err(error: E)
}
