/** Optional values, standing for the `undefined`/`null` of the original. */
module Wrappers {

  datatype Option<+T> = None | Some(value: T)
}
