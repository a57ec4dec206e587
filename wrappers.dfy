/** Optional values, standing for JavaScript's `undefined`/`null` where the app checks for them. */
module Wrappers {

  datatype Option<+T> = None | Some(value: T)
}
