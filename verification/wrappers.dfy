/** Optional values: JavaScript's `null` / `undefined` for the fields that may be absent. */
module Wrappers {
  datatype Option<+T> = None | Some(value: T)
}
