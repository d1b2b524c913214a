/** Optional values: an input that may fail to parse, a score table that may fail to load. */
module Wrappers {

  datatype Option<+T> = None | Some(value: T)
}
