/** The optional value the source expresses with `undefined`/`null`. */
module Wrappers {

  datatype Option<+T> = None | Some(value: T)
}
