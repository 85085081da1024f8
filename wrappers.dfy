/** Optional values and results with an error, the shapes JavaScript expresses with
    `undefined` and with thrown exceptions. */
module Wrappers {

  datatype Option<+T> = None | Some(value: T)

  datatype Result<+T, +E> = Ok(value: T) | Err(error: E)
}
