/** Optional values: a NULL thread pointer or an empty slot is `None`. */
module Wrappers {
  datatype Option<+T> = None | Some(value: T)
}
