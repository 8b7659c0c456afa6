/** The optional value used for fallible oracles and for the fault of a run. */
module Wrappers {

  datatype Option<+T> = None | Some(value: T)
}
