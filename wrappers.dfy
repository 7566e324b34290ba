/** Optional values and results with an error code, used wherever the plugin
    returns a null pointer, an HRESULT or a "not found" position. */
module Wrappers {

  datatype Option<+T> = None | Some(value: T)

  datatype Result<+R, +E> = Success(value: R) | Failure(error: E)
}
