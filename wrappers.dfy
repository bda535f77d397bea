/** Optional values: stands in for `undefined` and for `NaN` in the component. */
module Wrappers {
  datatype Option<+T> = None | Some(value: T)
}
