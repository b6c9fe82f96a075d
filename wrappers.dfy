/** The optional value used for `Optional[...]` fields and results. */
module Wrappers {

  datatype Option<+T> = None | Some(value: T)
}
