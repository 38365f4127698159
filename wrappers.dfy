/** Optional values: a frame that a cycle shows, or nothing. */
module Wrappers {

  datatype Option<+T> = None | Some(value: T)
}
