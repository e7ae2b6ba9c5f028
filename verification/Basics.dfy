/** Names shared by every module of the project. */
module Basics {
  datatype Option<+T> = None | Some(value: T)
}
