/** The optional value used wherever the source uses `null` or an `undefined` lookup result. */
module Wrappers {

  datatype Option<+T> = None | Some(value: T)
}
