/** The optional value the source expresses with `null`, `undefined` or `?`. */
module Wrappers {

  datatype Option<+T> = None | Some(value: T)
}
