/** Swift's optional (`T?`): a value that may be absent. */
module Wrappers {

  datatype Option<+T> = None | Some(value: T)
}
