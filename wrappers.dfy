/** The optional value used throughout the model in place of JavaScript's
    `undefined`/`false` results. */
module Wrappers {

  datatype Option<+T> = None | Some(value: T)
}
