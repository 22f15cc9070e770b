/** Python's `None`-or-value, as used for the node's optional inputs and its caches. */
module Wrappers {

  datatype Option<+T> = None | Some(value: T)
}
