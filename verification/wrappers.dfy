/** Optional values: a field or result that may be absent. */
module Wrappers {
  datatype Option<T> = None | Some(value: T)
}
