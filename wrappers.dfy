/** A value that TypeScript types as `T | null`. */
module Wrappers {

  datatype Option<+T> = None | Some(value: T)
}
