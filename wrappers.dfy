/** Failure-carrying values: a Python call that raises is modelled by None. */
module Wrappers {

  datatype Option<+T> = None | Some(value: T)
}
