/** Small shared datatypes. */
module Wrappers {

  /** `None` stands for the `null` (or `undefined`) the source returns or stores. */
  datatype Option<T> = None | Some(value: T)
}
