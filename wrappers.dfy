/** The optional value used for nullable columns, absent dictionary keys and failed parses. */
module Wrappers {

  datatype Option<+T> = None | Some(value: T)
}
