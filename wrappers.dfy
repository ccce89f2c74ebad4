/** The absent-or-present marker used for the nullable fields of a result. */
module Wrappers {

  /** `None` stands for the source's `null`; `Some(x)` for a present `x`. */
  datatype Option<+T> = None | Some(value: T)
}
