/** Optional values, standing for JavaScript's `undefined` where the source reads a missing slot. */
module Wrappers {
  datatype Option<+T> = None | Some(value: T)
}
