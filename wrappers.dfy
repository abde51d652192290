/** Optional values: Go's nil references and error returns. */
module Wrappers {

  datatype Option<+T> = None | Some(value: T)
}
