/** Optional values, standing for std::optional and for nullable lookups. */
module Wrappers {
  datatype Option<+T> = None | Some(value: T)
}
