/** Java's nullable references made explicit. */
module Wrappers {

  /** `None` stands for Java's `null`, `Some(v)` for a reference to `v`. */
  datatype Option<+T> = None | Some(value: T)
}
