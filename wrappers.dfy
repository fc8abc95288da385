/** Optional values, standing in for Swift optionals and implicitly unwrapped optionals. */
module Wrappers {
  datatype Option<+T> = None | Some(value: T)
}
