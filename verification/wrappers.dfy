/** The optional-value datatype shared by the config parser and the volume state machine. */
module Wrappers {

  datatype Option<+T> = None | Some(value: T)
}
