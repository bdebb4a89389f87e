/** The optional value used for attributes an element may lack and for dictionary lookups. */
module Wrappers {
  datatype Option<+T> = None | Some(value: T)
}
