/** The optional value that stands for a Swift optional (`UIView?`, `UIResponder?`). */
module Wrappers {

  datatype Option<+T> = None | Some(value: T)

}
