/** The optional value used throughout for JavaScript's `undefined` and for
    server actions that return nothing when they fail. */
module Wrappers {

  datatype Option<+T> = None | Some(value: T)
}
