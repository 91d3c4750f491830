/** Optional values: a JavaScript `null`, a missing storage key or a `NaN` parse result is `None`. */
module Wrappers {

  datatype Option<+T> = None | Some(value: T)
}
