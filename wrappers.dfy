/** The optional value that stands for JavaScript's `undefined` results
    (`Array.prototype.find` with no match, a hole in an array). */
module Wrappers {

  datatype Option<+T> = None | Some(value: T)
}
