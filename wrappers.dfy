/** Optional values and error results, used where the source returns
    nothing, raises, or reads a key that may be absent. */
module Wrappers {

  datatype Option<+T> = None | Some(value: T)

  datatype Result<+T, +E> = Ok(value: T) | Err(error: E)
}
