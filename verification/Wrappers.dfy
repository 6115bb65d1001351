/** Optional values, as used throughout the models. */
module Wrappers {
  datatype Option<+T> = None | Some(value: T)
}
