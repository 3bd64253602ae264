/** The optional value that stands for a JSON field that may be absent. */
module Wrappers {

  datatype Option<+T> = None | Some(value: T)
}
