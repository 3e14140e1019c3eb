/** Optional values: the fields the page reads with a truthiness test or leaves unset. */
module Wrappers {
  datatype Option<+T> = None | Some(value: T)
}
