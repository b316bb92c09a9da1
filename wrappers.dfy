/** The optional value used for results that Python represents as `None`. */
module Wrappers {

  datatype Option<+T> = None | Some(value: T)
}
