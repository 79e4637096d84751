/** How much one Tread, Twrite or Treaddir may carry (client/file.go, server/bridge.go). */
module Chunks {
  import opened Common

  /** The smallest msize either side negotiates. */
  const MIN_MSIZE := 256

  /** The margin the client keeps for the frame header and the fixed fields of Twrite and Rread. */
  const IO_FRAME_OVERHEAD := 24

  function TwriteSize(n: int): int { HEADER_SIZE + 4 + 8 + 4 + n }

  function RreadSize(n: int): int { HEADER_SIZE + 4 + n }

  /** The largest count the client asks for: never zero, and never too much for the frames that carry it. */
  function MaxChunk(msize: U32, iounit: U32): (c: int)
    requires msize >= MIN_MSIZE
    ensures 1 <= c <= MAX_DATA_SIZE && (iounit != 0 ==> c <= iounit)
    ensures TwriteSize(c) <= msize && RreadSize(c) <= msize
    ensures c == MAX_DATA_SIZE || (iounit != 0 && c == iounit) || TwriteSize(c) == msize - 1
  {
    var limit := if iounit != 0 && iounit < msize - IO_FRAME_OVERHEAD then iounit else msize - IO_FRAME_OVERHEAD;
    Min(limit, MAX_DATA_SIZE)
  }

  /** The server's clamp on a requested count: the reply fits msize. */
  function Clamp(msize: U32, count: U32): (c: int)
    requires msize >= MIN_MSIZE
    ensures 0 <= c <= count && RreadSize(c) <= msize
    ensures c == count || RreadSize(c) == msize
  {
    Min(count, msize - HEADER_SIZE - 4)
  }

  /** The iounit the server advertises: some payload always fits, and no reply of that size is too large. */
  function ClampIOUnit(msize: U32, hint: U32): (u: U32)
    requires msize >= MIN_MSIZE
    ensures u > 0 && RreadSize(u) <= msize
    ensures if hint != 0 && RreadSize(hint) <= msize then u == hint else RreadSize(u) == msize
  {
    var most := msize - HEADER_SIZE - 4;
    if hint == 0 || hint > most then most else hint
  }
}
