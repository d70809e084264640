/** Optional values: `null`/`undefined` in the worker's records. */
module Wrappers {
  datatype Option<+T> = None | Some(value: T)
}
