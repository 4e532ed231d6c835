/** Optional values and results with an error, as the Go code expresses them with nil
    pointers and `(value, err)` returns. */
module Wrappers {

  datatype Option<+T> = None | Some(value: T)

  datatype Result<+T, +E> = Ok(value: T) | Err(error: E)
}
