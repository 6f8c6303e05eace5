/** The optional-value wrapper used for the tracker's nullable inputs and state. */
module Wrappers {

  datatype Option<+T> = None | Some(value: T)

}
