/** Small shared vocabulary: the C++ `int` of the engine and an optional value. */
module Basics {

  /** The 32-bit signed `int` the engine stores line numbers, exit codes and options in. */
  newtype int32 = x: int | -0x8000_0000 <= x < 0x8000_0000

  /** `INT_MAX`, used as the "no SyncTeX option given" sentinel. */
  const INT_MAX: int32 := 0x7FFF_FFFF

  datatype Option<+T> = None | Some(value: T)
}
