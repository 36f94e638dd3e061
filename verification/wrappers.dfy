/** The optional-value datatype used for JavaScript properties that may be absent. */
module Wrappers {

  /** `None` stands for a property that is `undefined` (or not of the type the code compares with). */
  datatype Option<+T> = None | Some(value: T)
}
