/** Optional values, for a Go pointer or slot that may be nil or unset. */
module Wrappers {
  datatype Option<+T> = None | Some(value: T)
}
