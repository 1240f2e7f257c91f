/** Optional values, used where the source has a nil pointer, a missing map entry or an empty text. */
module Wrappers {
  datatype Option<+T> = None | Some(value: T)
}
