/** Optional values, standing for JavaScript's `null` / absent entries. */
module Wrappers {

  datatype Option<+T> = None | Some(value: T)
}
