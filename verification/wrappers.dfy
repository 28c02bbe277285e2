/** The optional-value type the model uses for C# `null` returns. */
module Wrappers {

  /** `None` stands for a null reference, `Some(v)` for a present value `v`. */
  datatype Option<+T> = None | Some(value: T)
}
