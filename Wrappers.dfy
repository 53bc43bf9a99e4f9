/** Optional values: the model's stand-in for TypeScript's `T | null` and optional fields. */
module Wrappers {

  datatype Option<+T> = None | Some(value: T)

}
