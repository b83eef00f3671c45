/** Optional values: a request parameter or a table row that may be absent. */
module Wrappers {

  datatype Option<+T> = None | Some(value: T)
}
