/** Small value wrappers shared by the components. */
module Wrappers {

  /** A value that may be absent: JavaScript's `null`/`undefined` beside a real value. */
  datatype Option<+T> = None | Some(value: T)
}
