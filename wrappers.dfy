/** An optional value: `None` also stands for Go's `nil` error. */
module Wrappers {

  datatype Option<+T> = None | Some(value: T)
}
