/** Optional values: the Python `None` against a present value. */
module Wrappers {

  datatype Option<+T> = None | Some(value: T)
}
