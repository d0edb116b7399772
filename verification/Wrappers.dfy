/** Optional and exceptional results. */
module Wrappers {
  datatype Option<+T> = None | Some(value: T)
}
