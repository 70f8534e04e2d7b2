/** Optional values, as returned by Python's `dict.get` and `json.loads`. */
module Wrappers {

  datatype Option<+T> = None | Some(value: T)
}
