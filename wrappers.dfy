/** An optional value: stands for a TypeScript `T | undefined` field and for
    storage reads that may yield nothing. */
module Wrappers {

  datatype Option<+T> = None | Some(value: T)
}
