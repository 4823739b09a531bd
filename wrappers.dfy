/** The optional-value datatype used for unbound sockets and failed lookups. */
module Wrappers {

  datatype Option<+T> = None | Some(value: T)
}
