/** The optional value used for the outcome of a pattern search. */
module Wrappers {

  datatype Option<+T> = None | Some(value: T)
}
