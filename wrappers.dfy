/** The optional value used by the other modules for results that may be absent. */
module Wrappers {

  datatype Option<+T> = None | Some(value: T)

}
