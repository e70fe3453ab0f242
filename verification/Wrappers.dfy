/** Optional values, for lookups the source answers with `None`. */
module Wrappers {
  datatype Option<+T> = None | Some(value: T)
}
