/** Value types that several modules share. */
module Basics {
  datatype Option<+T> = None | Some(value: T)

  newtype byte = n: int | 0 <= n < 256
  type Bytes = seq<byte>

  function Least(a: int, b: int): int { if a < b then a else b }

  function Max(a: int, b: int): int { if a < b then b else a }
}
