/** Optional values and results with an error, used for the document's optional fields,
    the matched country and the search outcome. */
module Wrappers {

  datatype Option<+T> = None | Some(value: T)

  datatype Result<+R, +E> = Success(value: R) | Failure(error: E)
}
