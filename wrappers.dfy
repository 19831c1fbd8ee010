/** Optional values: a form field that may be absent, a cookie that may be unset. */
module Wrappers {
  datatype Option<+T> = None | Some(value: T)
}
