/** The optional value used where the source returns `null` or reads a missing JSON field. */
module Wrappers {

  datatype Option<+T> = None | Some(value: T)
}
