/** Optional values and error results, standing in for TypeScript's
    `T | undefined` / `T | null` and for thrown errors. */
module Wrappers {

  datatype Option<+T> = None | Some(value: T)

  datatype Result<+T, +E> = Ok(value: T) | Err(error: E)
}
