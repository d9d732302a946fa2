/** Optional values: a parse that fails, a digit that is absent. */
module Wrappers {

  datatype Option<+T> = None | Some(value: T)
}
