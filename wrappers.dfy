/** Optional values: a TypeScript `x?: T` or `T | undefined` becomes an `Option<T>`. */
module Wrappers {

  datatype Option<+T> = None | Some(value: T)
}
