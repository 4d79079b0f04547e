/** The optional value that stands for TypeScript's `undefined`/`null` and for
    a key that is absent from a partial record. */
module Wrappers {

  datatype Option<+T> = None | Some(value: T)
}
