/** Optional values: Go's nil results and (value, error) pairs whose error carries no detail. */
module Wrappers {

  datatype Option<+T> = None | Some(value: T)
}
