/** Optional values, used for pointers that may be NULL and for queries that may fail. */
module Wrappers {
  datatype Option<+T> = None | Some(value: T)
}
