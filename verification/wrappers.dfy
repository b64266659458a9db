/** The optional result of a lookup. `None` stands for the `undefined` that
    `Array.prototype.find` yields when no element matches. */
module Wrappers {

  datatype Option<+T> = None | Some(value: T)
}
