/** Optional values: an absent frame, an absent interface name, a dropped byte. */
module Wrappers {

  datatype Option<+T> = None | Some(value: T)
}
