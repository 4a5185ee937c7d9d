/** Optional values, standing in for Go's nil pointers and `(value, ok)` pairs. */
module Wrappers {

  datatype Option<+T> = None | Some(value: T)
}
