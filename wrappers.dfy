/** Swift optionals: a value that may be absent (`nil`). */
module Wrappers {

  datatype Option<+T> = None | Some(value: T)
}
