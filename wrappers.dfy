/** The optional value used wherever `retrieve` or `get` returns a value or `None`. */
module Wrappers {

  datatype Option<+T> = None | Some(value: T)
}
