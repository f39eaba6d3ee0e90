/** Optional values: JavaScript's `undefined`/`null` on the one hand and a present value on the other. */
module Wrappers {

  datatype Option<+T> = None | Some(value: T)
}
