/** Optional values: the model's stand-in for `null`/`undefined` results. */
module Wrappers {

  datatype Option<+T> = None | Some(value: T)

}
