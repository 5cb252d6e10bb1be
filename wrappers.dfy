/** Optional values, used for the source's `undefined` / `null` fields. */
module Wrappers {

  datatype Option<+T> = None | Some(value: T)
}
