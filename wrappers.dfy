/** Option and Result, for values the source may lack (`null`, `undefined`) and for
    calls that either return a value or throw an `Error` with a message. */
module Wrappers {

  datatype Option<+T> = None | Some(value: T)

  datatype Result<+T, +E> = Ok(value: T) | Err(error: E)
}
