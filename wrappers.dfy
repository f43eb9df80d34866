/** The optional value used for the record's nullable columns. */
module Wrappers {

  datatype Option<+T> = None | Some(value: T)
}
