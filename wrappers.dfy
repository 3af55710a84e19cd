/** Optional values, for JavaScript's `undefined` and the host's unset entries. */
module Wrappers {

  datatype Option<+T> = None | Some(value: T)
}
