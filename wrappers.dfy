/** Optional values: a field or query parameter that may be absent from a request. */
module Wrappers {
  datatype Option<+T> = None | Some(value: T)
}
