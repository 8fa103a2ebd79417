/** The optional value used wherever the app's code works with a Swift optional. */
module Wrappers {

  datatype Option<+T> = None | Some(value: T)
}
