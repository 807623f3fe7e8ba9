/** The optional-value type used throughout the model. */
module Wrappers {

  /** `None` stands for JavaScript's `undefined` (or `null` where a function returns it
      as "not found"); `Some(v)` for a present value. */
  datatype Option<+T> = None | Some(value: T)
}
