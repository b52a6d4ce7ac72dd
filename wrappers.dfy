/** Optional values and fallible results, used where the source returns
    "nothing" (a null handle) or stops with a fatal log message. */
module Wrappers {

  datatype Option<+T> = None | Some(value: T)

  datatype Result<+R, +E> = Ok(value: R) | Err(error: E)
}
