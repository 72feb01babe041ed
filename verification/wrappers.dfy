/** Optional values, used for nullable columns and for Go's `error` results (None = nil). */
module Wrappers {
  datatype Option<T> = None | Some(value: T)
}
