/** The optional value used wherever a step of the model may yield nothing. */
module Wrappers {

  datatype Option<+T> = None | Some(value: T)
}
