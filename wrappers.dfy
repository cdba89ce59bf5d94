/** The optional value used for "no open day" and for a lookup that finds nothing. */
module Wrappers {

  datatype Option<+T> = None | Some(value: T)
}
