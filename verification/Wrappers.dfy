/** SQL NULL, Python None and every "maybe absent" answer in the models. */
module Wrappers {

  datatype Option<+T> = None | Some(value: T)
}
