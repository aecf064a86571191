/** The optional value used where the source stores or returns `null`. */
module Wrappers {

  /** `None` stands for the source's `null`, `Some(v)` for a present value `v`. */
  datatype Option<+T> = None | Some(value: T)
}
