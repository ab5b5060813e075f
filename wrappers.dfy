/** Optional values, for results that may be absent or for an operation that can fail. */
module Wrappers {

  datatype Option<+T> = None | Some(value: T)
}
