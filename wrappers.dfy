/** Optional values: a JavaScript `null`/`undefined` or a `false` used as "no message". */
module Wrappers {
  datatype Option<+T> = None | Some(value: T)
}
