/** An optional value: stands for TypeScript's `T | null` (and for a field that may be absent). */
module Wrappers {
  datatype Option<+T> = None | Some(value: T)
}
