/** The optional value used for `string | null` results. */
module Wrappers {

  datatype Option<+T> = None | Some(value: T)
}
