/** Optional values, used for name lookups and for the crisis slot of a turn. */
module Wrappers {
  datatype Option<T> = None | Some(value: T)
}
