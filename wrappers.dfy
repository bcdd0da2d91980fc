/** Optional values: a result that may be absent, or a call that may fail. */
module Wrappers {

  datatype Option<+T> = None | Some(value: T)
}
