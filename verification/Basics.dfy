/** Small types shared by every module. */
module Basics {
  datatype Option<+T> = None | Some(value: T)
}
