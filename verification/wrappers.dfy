/** Java's nullable references, as an explicit Some/None datatype. */
module Wrappers {

  /** `None` stands for Java's `null`. */
  datatype Option<+T> = None | Some(value: T)
}
