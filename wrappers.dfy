/** Optional values, used for the outcomes the source expresses with null or an exception. */
module Wrappers {
  datatype Option<+T> = None | Some(value: T)
}
