/** Optional values, for fields that may be missing and for operations that may abort. */
module Wrappers {
  datatype Option<+T> = None | Some(value: T)
}
