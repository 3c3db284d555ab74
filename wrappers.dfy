/** Optional values: a fetch that yields nothing, an absent alert time, a parse that fails. */
module Wrappers {
  datatype Option<+T> = None | Some(value: T)
}
