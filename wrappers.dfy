/** The optional value used for absent results. */
module Wrappers {

  datatype Option<+T> = None | Some(value: T)
}
