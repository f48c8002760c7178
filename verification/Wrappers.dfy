/** Types shared by the other modules. */
module Wrappers {
  /** A value that may be absent: `null`, `undefined`, or what a thrown error leaves of a result. */
  datatype Option<+T> = None | Some(value: T)

  type byte = x: int | 0 <= x < 256
}
