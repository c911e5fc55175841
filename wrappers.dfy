/** Optional values: the model's reading of a TypeScript `T | undefined` (or `T | null`). */
module Wrappers {
  datatype Option<+T> = None | Some(value: T)
}
