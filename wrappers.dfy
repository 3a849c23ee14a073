/** Small helper types shared by the engine model. */
module Wrappers {

  /** A value that may be missing. For an external read, `None` means the read failed. */
  datatype Option<+T> = None | Some(value: T)

  /** An Ethereum account address, as the hexadecimal string the node uses. */
  type Address = string
}
