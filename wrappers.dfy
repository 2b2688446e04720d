/** Optional values: the model's rendering of `null` / `undefined` and of `NaN`. */
module Wrappers {

  datatype Option<+T> = None | Some(value: T)
}
