/** Optional values: JavaScript's `undefined`/`null` results ("not found",
    "criterion not supplied") become `None`. */
module Wrappers {

  datatype Option<+T> = None | Some(value: T)

}
