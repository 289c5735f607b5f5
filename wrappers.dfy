/** Optional values, used for cookies, replies and component state that may be absent. */
module Wrappers {
  datatype Option<+T> = None | Some(value: T)
}
