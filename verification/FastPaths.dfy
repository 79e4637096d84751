/**
 The decoders that avoid a copy, against the ones that do not: zero-copy Rread delivery in the client's read
 loop (client/read_loop.go, client/ops.go) and Twrite.DecodeFromBuf and EncodeFixed (proto/messages.go).
 */
module FastPaths {
  import opened Common
  import opened Fields
  import opened Frames
  import opened Messages
  import opened Wire

  const TWO32 := 0x1_0000_0000

  // ---------------------------------------------------------------- Rread into the caller's buffer

  /** Decoding the Rread, then tread's check that no more came than was asked for. */
  function SlowRread(body: seq<Byte>, count: U32): Option<seq<Byte>> {
    match DecodeData(body)
    case None => None
    case Some((d, _)) => if |d| > count then None else Some(d)
  }

  /** The read loop's pre-check on the slow path: the count must not exceed the body. */
  predicate PreChecked(body: seq<Byte>) { |body| >= 4 && UnLE(body[..4]) <= |body| - 4 }

  /** What the read loop's zero-copy branch accepts, by its own checks in its own order. */
  predicate ZeroCopyAccepts(body: seq<Byte>, dstLen: nat) {
    && |body| >= 4
    && var count := UnLE(body[..4]);
       count <= MAX_DATA_SIZE && count <= dstLen % TWO32 && count <= |body| - 4
  }

  /** `body` is the frame after its type and tag. A refused frame shuts the connection down and touches nothing. */
  method ZeroCopyRread(body: seq<Byte>, dst: array<Byte>) returns (n: Option<nat>)
    modifies dst
    ensures n.Some? <==> ZeroCopyAccepts(body, dst.Length)
    ensures n.None? ==> dst[..] == old(dst[..])
    ensures n.Some? ==>
              && n.value <= dst.Length && 4 + n.value <= |body|
              && Some((dst[..n.value], body[4 + n.value..])) == DecodeData(body)
              && dst[n.value..] == old(dst[n.value..])
  {
    if |body| < 4 {
      return None;
    }
    var count := UnLE(body[..4]);
    if count > MAX_DATA_SIZE {
      return None;
    }
    if count > dst.Length % TWO32 {
      return None;
    }
    if count > |body| - 4 {
      return None;
    }
    assert count <= dst.Length;
    forall i | 0 <= i < count {
      dst[i] := body[4 + i];
    }
    assert dst[..count] == body[4..][..count] && body[4..][count..] == body[4 + count..];
    return Some(count);
  }

  /**
   Given a buffer of exactly the requested length, as readAtZeroCopy passes, the fast path accepts exactly
   when decoding and checking the count would, and what decoding accepts always passes the pre-check.
   */
  lemma ZeroCopyRefinesDecode(body: seq<Byte>, count: U32)
    ensures ZeroCopyAccepts(body, count) <==> SlowRread(body, count).Some?
    ensures SlowRread(body, count).Some? ==>
              PreChecked(body) && SlowRread(body, count) == Some(body[4..4 + UnLE(body[..4])])
  {
    if |body| >= 4 {
      var n := UnLE(body[..4]);
      if n <= |body| - 4 {
        assert body[4..][..n] == body[4..4 + n];
      }
    }
  }

  /** A longer buffer is the caller's to avoid: from 2^32 on its length is compared modulo 2^32. */
  lemma LongBufferRefusesGoodReply(body: seq<Byte>, count: U32)
    requires SlowRread(body, count).Some? && SlowRread(body, count).value != []
    ensures !ZeroCopyAccepts(body, TWO32)
  {}

  // ---------------------------------------------------------------- Twrite without a copy

  datatype TwriteMsg = TwriteMsg(fid: U32, offset: U64, data: seq<Byte>)

  /** Twrite.DecodeFrom over a reader on b. Bytes after the data are left unread. */
  function DecodeFrom(b: seq<Byte>): Option<TwriteMsg> {
    match DecodeInt(4, b)
    case None => None
    case Some((fid, b1)) =>
      match DecodeInt(8, b1)
      case None => None
      case Some((offset, b2)) =>
        match DecodeData(b2)
        case None => None
        case Some((data, _)) =>
          if fid <= UINT32_MAX && offset <= UINT64_MAX then Some(TwriteMsg(fid, offset, data)) else None
  }

  /** Twrite.DecodeFromBuf: the data is a slice of b, and the length left is compared as a uint32. */
  function DecodeFromBuf(b: seq<Byte>): Option<TwriteMsg> {
    if |b| < 16 then None
    else
      var fid, offset, count := UnLE(b[..4]), UnLE(b[4..12]), UnLE(b[12..16]);
      if count > MAX_DATA_SIZE || (|b| - 16) % TWO32 < count || fid > UINT32_MAX || offset > UINT64_MAX then None
      else
        assert (|b| - 16) % TWO32 <= |b| - 16;
        Some(TwriteMsg(fid, offset, b[16..16 + count]))
  }

  lemma FixedPart(b: seq<Byte>)
    requires |b| >= 16
    ensures DecodeInt(4, b) == Some((UnLE(b[..4]), b[4..]))
    ensures DecodeInt(8, b[4..]) == Some((UnLE(b[4..12]), b[12..]))
    ensures DecodeInt(4, b[12..]) == Some((UnLE(b[12..16]), b[16..]))
    ensures UnLE(b[..4]) <= UINT32_MAX && UnLE(b[4..12]) <= UINT64_MAX
  {
    Widths();
    UnLEBound(b[..4]);
    UnLEBound(b[4..12]);
    assert b[4..][..8] == b[4..12] && b[4..][8..] == b[12..];
    assert b[12..][..4] == b[12..16] && b[12..][4..] == b[16..];
  }

  lemma DataPart(b: seq<Byte>)
    requires |b| >= 16
    ensures var n := UnLE(b[12..16]);
            DecodeData(b[12..]) ==
              if n > MAX_DATA_SIZE || n > |b| - 16 then None else Some((b[16..16 + n], b[16 + n..]))
  {
    FixedPart(b);
    var n := UnLE(b[12..16]);
    if n <= |b| - 16 {
      assert b[16..][..n] == b[16..16 + n] && b[16..][n..] == b[16 + n..];
    }
  }

  /** The guard the two decoders differ on: the body's length left after the fixed fields, taken modulo 2^32. */
  predicate LengthWraps(b: seq<Byte>) {
    |b| >= 16 && UnLE(b[12..16]) <= MAX_DATA_SIZE && UnLE(b[12..16]) <= |b| - 16 && (|b| - 16) % TWO32 < UnLE(b[12..16])
  }

  /** The two Twrite decoders agree, in success and in every field, exactly when the length does not wrap. */
  lemma BufDecodeAgreesIffNoWrap(b: seq<Byte>)
    ensures DecodeFromBuf(b) == DecodeFrom(b) <==> !LengthWraps(b)
  {
    if |b| >= 16 {
      FixedPart(b);
      DataPart(b);
    } else {
      ShortBody(b);
    }
  }

  lemma ShortBody(b: seq<Byte>)
    requires |b| < 16
    ensures DecodeFrom(b) == None
  {
    match DecodeInt(4, b)
    case None =>
    case Some((_, b1)) =>
      match DecodeInt(8, b1)
      case None =>
      case Some((_, b2)) => assert |b2| < 4;
  }

  /** No frame that a size field can announce is long enough to wrap. */
  lemma FramesDoNotWrap(b: seq<Byte>)
    requires |b| <= UINT32_MAX
    ensures !LengthWraps(b)
  {}

  /** A body of 2^32 + 16 bytes that announces one byte of data is decoded by one and refused by the other. */
  lemma WrappingBodyExists()
    ensures exists b: seq<Byte> :: LengthWraps(b) && DecodeFrom(b).Some? && DecodeFromBuf(b).None?
  {
    var head := LE(4, 0) + LE(8, 0) + LE(4, 1);
    var b := head + seq(TWO32, i => 0);
    Fits4(1);
    LERoundTrip(4, 1);
    assert b[12..16] == LE(4, 1);
    FixedPart(b);
    DataPart(b);
    assert LengthWraps(b);
  }

  // ---------------------------------------------------------------- the split encoding

  /** EncodeFixed: everything of a Twrite body but its payload. */
  function EncodeFixed(m: TwriteMsg): seq<Byte> { LE(4, m.fid) + LE(8, m.offset) + LE(4, |m.data|) }

  /** Header part and payload written separately are the bytes of the whole message. */
  lemma SplitEncodingIsWhole(m: TwriteMsg)
    ensures EncodeFixed(m) + m.data == Body(Twrite(m.fid, m.offset, m.data))
  {
    var fs := FieldsOf(Twrite(m.fid, m.offset, m.data));
    assert fs[1..][1..] == [Data(m.data)] && fs[1..][1..][1..] == [];
    var a, b, c := LE(4, m.fid), LE(8, m.offset), LE(4, |m.data|);
    calc {
      EncodeFields(fs);
      a + EncodeFields(fs[1..]);
      a + (b + EncodeFields([Data(m.data)]));
      {
        assert EncodeFields([Data(m.data)]) == (c + m.data) + EncodeFields([]);
        assert (c + m.data) + [] == c + m.data;
      }
      a + (b + (c + m.data));
      { Assoc(b, c, m.data); Assoc(a, b + c, m.data); Assoc(a, b, c); }
      (a + b + c) + m.data;
    }
  }

  /** What the client writes as two buffers, the server's zero-copy decoder reads back. */
  lemma SplitTwriteIsRead(m: TwriteMsg)
    requires |m.data| <= MAX_DATA_SIZE
    ensures DecodeFromBuf(EncodeFixed(m) + m.data) == Some(m)
  {
    var b := EncodeFixed(m) + m.data;
    Fits4(m.fid);
    Fits4(|m.data|);
    Widths();
    LERoundTrip(4, m.fid);
    LERoundTrip(8, m.offset);
    LERoundTrip(4, |m.data|);
    assert b[..4] == LE(4, m.fid) && b[4..12] == LE(8, m.offset) && b[12..16] == LE(4, |m.data|);
    assert b[16..16 + |m.data|] == m.data;
  }
}
