/** Optional values: a JavaScript `null`/`undefined` result is `None`. */
module Wrappers {
  datatype Option<+T> = None | Some(value: T)
}
