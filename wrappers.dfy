/** Optional values, used for the omitted `target_sum` argument and for search results. */
module Wrappers {
  datatype Option<T> = None | Some(value: T)
}
