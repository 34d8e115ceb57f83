/** Optional values: an absent field of an inbound message, an absent log entry. */
module Wrappers {

  datatype Option<+T> = None | Some(value: T)
}
