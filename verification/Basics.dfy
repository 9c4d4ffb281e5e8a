/** Types shared by the modules. */
module Basics {

  datatype Option<T> = None | Some(value: T)

  type Byte = b: int | 0 <= b < 256
  type Bytes = seq<Byte>
}
