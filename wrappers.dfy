/** Optional values and results with an error, as the JavaScript code expresses them
    with `undefined` and rejected promises. */
module Wrappers {

  datatype Option<+T> = None | Some(value: T)

  datatype Result<+T, +E> = Ok(value: T) | Err(error: E)
}
