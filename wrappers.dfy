/** Option and Result, used for nullable columns, optional payload fields and the
    exceptions the service turns into HTTP errors. */
module Wrappers {

  datatype Option<+T> = None | Some(value: T)

  datatype Result<+T, +E> = Ok(value: T) | Err(error: E)
}
