/** Optional values: the model's stand-in for Go's `value, ok` pairs and nil results. */
module Wrappers {
  datatype Option<+T> = None | Some(value: T)
}
