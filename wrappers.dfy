/** The optional value used for dialog results, context entries and widget fields that may be unset. */
module Wrappers {

  datatype Option<+T> = None | Some(value: T)
}
