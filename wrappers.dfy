/** An optional value, used for absent parameters and unparseable bodies. */
module Wrappers {

  datatype Option<+T> = None | Some(value: T)
}
