/** Stock optional-value wrapper used by the opcode table and by the state parser. */
module Wrappers {
  datatype Option<+T> = None | Some(value: T)
}
