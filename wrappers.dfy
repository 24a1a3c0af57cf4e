/** Optional values, for absent results and thrown messages. */
module Wrappers {
  datatype Option<+T> = None | Some(value: T)
}
