/** Optional values and results with an error, used wherever the modelled code
    returns `undefined`/`null` or raises. */
module Wrappers {

  datatype Option<+T> = None | Some(value: T)

  datatype Result<+T, +E> = Ok(value: T) | Err(error: E)
}
