/** Optional values: `None` models Python's `None` / an absent lookup. */
module Wrappers {
  datatype Option<+T> = None | Some(value: T)
}
