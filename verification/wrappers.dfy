/** The optional value the font table returns for an unknown legacy enum value. */
module Wrappers {

  datatype Option<+T> = None | Some(value: T)
}
