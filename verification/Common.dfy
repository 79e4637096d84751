/** Definitions shared by every part of the model. */
module Common {
  datatype Option<+T> = None | Some(value: T)

  datatype Result<+T, +E> = Ok(value: T) | Err(error: E)

  /** One octet of the wire or of a file. */
  type Byte = x: int | 0 <= x < 256

  const UINT16_MAX := 0xFFFF
  const UINT32_MAX := 0xFFFF_FFFF
  const UINT64_MAX := 0xFFFF_FFFF_FFFF_FFFF

  type U16 = x: int | 0 <= x <= UINT16_MAX
  type U32 = x: int | 0 <= x <= UINT32_MAX
  type U64 = x: int | 0 <= x <= UINT64_MAX

  // Protocol constants of package proto.
  const HEADER_SIZE := 7
  const QID_SIZE := 13
  const MAX_WALK_ELEMENTS := 16
  const MAX_DATA_SIZE := 0x100_0000
  const NO_TAG := 0xFFFF
  const NO_FID := 0xFFFF_FFFF

  function Min(a: int, b: int): int { if a <= b then a else b }
}
