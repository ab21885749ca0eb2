/** Optional values: a reading or a field that may be absent (JS null or NaN). */
module Wrappers {

  datatype Option<+T> = None | Some(value: T)
}
