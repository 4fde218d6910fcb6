/** What may be missing. */
module Wrappers {

  datatype Option<+V> = None | Some(value: V)
}
