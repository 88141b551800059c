/** Types used by several of the models. */
module Basics {
  type Byte = x: int | 0 <= x < 256

  datatype Option<T> = None | Some(value: T)
}
