/** The optional value used for the calculator's one failure path. */
module Wrappers {

  datatype Option<+T> = None | Some(value: T)
}
