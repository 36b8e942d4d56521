/** Optional values and fallible results, used wherever the source has a missing value
    (null, undefined, a missing key) or raises an exception. */
module Options {

  datatype Option<+T> = None | Some(value: T)

  datatype Result<+T, +E> = Ok(value: T) | Err(error: E)
}
