/** The absent-or-present value that the macro expresses with Python's `None`. */
module Wrappers {

  datatype Option<+T> = None | Some(value: T)
}
