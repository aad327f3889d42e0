/** Option, for values JavaScript represents as "a value or null/undefined". */
module Wrappers {

  datatype Option<+T> = None | Some(value: T)

}
