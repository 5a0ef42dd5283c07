/** Small types used throughout. */
module Wrappers {
  /** A nullable column, a missing entry, an absent argument. */
  datatype Option<+T> = None | Some(value: T)

  /** A count that the request models force to be at least one. */
  type pos = n: int | n >= 1 witness 1
}
