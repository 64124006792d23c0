/** Word sizes, optional values and the revert convention shared by all models. */
module Common {
  newtype uint8 = x: int | 0 <= x < 0x100
  newtype int8 = x: int | -0x80 <= x < 0x80
  newtype uint32 = x: int | 0 <= x < 0x1_0000_0000
  newtype uint64 = x: int | 0 <= x < 0x1_0000_0000_0000_0000
  newtype uint128 = x: int | 0 <= x < 0x1_0000_0000_0000_0000_0000_0000_0000_0000
  newtype int64 = x: int | -0x8000_0000_0000_0000 <= x < 0x8000_0000_0000_0000

  /** An account; 0 is the zero address. */
  type Address = nat

  /** A bytes32 value; 0 is bytes32(0). */
  type Hash = nat

  datatype Option<+T> = None | Some(value: T)

  /** A transaction either commits a new state or reverts with an error and changes nothing. */
  datatype Result<+S, +E> = Ok(value: S) | Revert(error: E)

  /** Reading a Solidity mapping: an absent key holds the type's zero value. */
  function Read<K, V>(m: map<K, V>, k: K, zero: V): V {
    if k in m then m[k] else zero
  }
}
