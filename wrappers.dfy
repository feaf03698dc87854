/** Small helper datatypes shared by the screen models. */
module Wrappers {

  /** An optional value: TypeScript's `T | undefined`. */
  datatype Option<+T> = None | Some(value: T)
}
