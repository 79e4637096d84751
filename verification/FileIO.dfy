/**
 Positional reads and writes end to end: the client's chunk loops (client/file.go) against the
 server's read and write handlers (server/bridge.go) over an in-memory file (server/memfs/memfs.go).
 */
module FileIO {
  import opened Chunks
  import opened Common

  datatype IoError = EFBIG | EIO | EOF | ShortWrite | NegativeOffset

  /** The file after data is written at off: a gap is zero-filled, everything else stays. */
  function Spliced(c: seq<Byte>, off: nat, data: seq<Byte>): (r: seq<Byte>)
    ensures |r| == if off + |data| > |c| then off + |data| else |c|
  {
    seq(if off + |data| > |c| then off + |data| else |c|, i requires i >= 0 =>
      if off <= i < off + |data| then data[i - off] else if i < |c| then c[i] else 0)
  }

  /** The file cut or zero-extended to a size. */
  function Resized(c: seq<Byte>, size: nat): (r: seq<Byte>)
    ensures |r| == size
    ensures forall i :: 0 <= i < size ==> r[i] == if i < |c| then c[i] else 0
  {
    seq(size, i requires 0 <= i < size => if i < |c| then c[i] else 0)
  }

  /** The part of the file a read of n bytes at off covers. */
  function Slice(c: seq<Byte>, off: nat, n: nat): (r: seq<Byte>)
    ensures |r| <= n
  {
    if off >= |c| then [] else c[off..Min(off + n, |c|)]
  }

  /** Byte by byte: the data in its range, every other byte of the file as it was, and zeros in a gap. */
  lemma SplicedBytes(c: seq<Byte>, off: nat, data: seq<Byte>)
    ensures var r := Spliced(c, off, data);
            && r[off..off + |data|] == data
            && (forall i :: 0 <= i < |c| && !(off <= i < off + |data|) ==> r[i] == c[i])
            && (forall i :: |c| <= i < off ==> r[i] == 0)
  {}

  /** Byte by byte: a read returns the file from off on, as much of it as there is and fits. */
  lemma SliceBytes(c: seq<Byte>, off: nat, n: nat)
    ensures var r := Slice(c, off, n);
            && |r| == (if off >= |c| then 0 else Min(n, |c| - off))
            && forall i :: 0 <= i < |r| ==> r[i] == c[off + i]
  {}

  /** Writing two pieces one after the other is writing them together. */
  lemma SpliceJoin(c: seq<Byte>, off: nat, a: seq<Byte>, b: seq<Byte>)
    requires a != []
    ensures Spliced(Spliced(c, off, a), off + |a|, b) == Spliced(c, off, a + b)
  {}

  /** Outside the n bytes at off, every byte of the file is as it was, and what is new is zero. */
  ghost predicate Keeps(c: seq<Byte>, c': seq<Byte>, off: nat, n: nat) {
    && |c'| >= |c|
    && (forall i :: 0 <= i < |c| && !(off <= i < off + n) ==> c'[i] == c[i])
    && (forall i :: |c| <= i < |c'| && !(off <= i < off + n) ==> c'[i] == 0)
  }

  /** The file after the first n bytes of p have been written at off. */
  function Written(c: seq<Byte>, off: nat, p: seq<Byte>, n: nat): seq<Byte>
    requires n <= |p|
  {
    if n == 0 then c else Spliced(c, off, p[..n])
  }

  lemma WrittenOn(c: seq<Byte>, off: nat, p: seq<Byte>, n: nat, m: nat)
    requires 0 < m && n + m <= |p|
    ensures Spliced(Written(c, off, p, n), off + n, p[n..n + m]) == Written(c, off, p, n + m)
  {
    var a, b := p[..n], p[n..n + m];
    assert p[..n + m] == a + b;
    if n == 0 {
      assert a + b == b;
    } else {
      SpliceJoin(c, off, a, b);
    }
  }

  lemma NextWritten(c: seq<Byte>, off: nat, p: seq<Byte>, n: nat, max: nat)
    requires n < |p| && max > 0
    ensures var end := Min(n + max, |p|); Spliced(Written(c, off, p, n), off + n, p[n..end]) == Written(c, off, p, end)
  {
    WrittenOn(c, off, p, n, Min(n + max, |p|) - n);
  }

  /** What was written is read back, whatever the file held. */
  lemma ReadBack(c: seq<Byte>, off: nat, p: seq<Byte>, n: nat)
    requires n <= |p|
    ensures Slice(Written(c, off, p, n), off, n) == p[..n]
  {
    assert n > 0 ==> Spliced(c, off, p[..n])[off..off + n] == p[..n];
  }

  /** A tail cut off by a truncation reads as zeros when the file grows over it again. */
  lemma RegrownTailIsZero(c: seq<Byte>, cut: nat, off: nat, data: seq<Byte>, i: nat)
    requires cut <= i < off
    ensures Spliced(Resized(c, cut), off, data)[i] == 0 && Resized(Resized(c, cut), off)[i] == 0
  {}

  /** Reading on from where a full piece ended continues the slice. */
  lemma SliceJoin(c: seq<Byte>, off: nat, a: nat, b: nat)
    requires |Slice(c, off, a)| == a
    ensures Slice(c, off, a + b) == Slice(c, off, a) + Slice(c, off + a, b)
  {}

  // ---------------------------------------------------------------- the in-memory file

  class MemFile {
    var data: array<Byte>    // backing store; a shrink keeps it
    var len: nat

    ghost predicate Valid()
      reads this
    {
      len <= data.Length && len <= MAX_DATA_SIZE
    }

    ghost function Contents(): seq<Byte>
      requires Valid()
      reads this, data
    {
      data[..len]
    }

    constructor (initial: seq<Byte>)
      requires |initial| <= MAX_DATA_SIZE
      ensures Valid() && fresh(data) && Contents() == initial
    {
      var a := new Byte[|initial|](i requires 0 <= i < |initial| => initial[i]);
      data, len := a, |initial|;
      new;
      assert data[..len] == initial;
    }

    /** A new backing store of the given size holding the contents and then zeros. */
    method Reallocate(size: nat)
      requires Valid() && len < size <= MAX_DATA_SIZE
      modifies this
      ensures Valid() && fresh(data) && Contents() == Resized(old(Contents()), size)
    {
      var before, n := data, len;
      var bigger := new Byte[size](i => 0);
      forall i | 0 <= i < n {
        bigger[i] := before[i];
      }
      data, len := bigger, size;
      assert data[..len] == Resized(old(Contents()), size);
    }

    /** checkedSize: the end of a write, unless the file would be too large. */
    function CheckedSize(offset: U64, count: nat): (r: Result<nat, IoError>)
      ensures r == Ok(offset + count) || r == Err(EFBIG)
      ensures r.Ok? <==> offset + count <= MAX_DATA_SIZE
    {
      if offset > MAX_DATA_SIZE || count > MAX_DATA_SIZE - offset then Err(EFBIG) else Ok(offset + count)
    }

    method Read(buf: array<Byte>, offset: U64) returns (n: nat)
      requires Valid() && buf != data
      modifies buf
      ensures n <= buf.Length && buf[..n] == Slice(Contents(), offset, buf.Length)
      ensures forall i :: n <= i < buf.Length ==> buf[i] == old(buf[i])
    {
      if offset >= len {
        return 0;
      }
      var end := Min(offset + buf.Length, len);
      n := end - offset;
      ghost var c := Contents();
      forall i | 0 <= i < n {
        buf[i] := data[offset + i];
      }
      assert forall i :: 0 <= i < n ==> buf[i] == c[offset + i];
      assert buf[..n] == c[offset..end];
    }

    method Write(bytes: seq<Byte>, offset: U64) returns (r: Result<nat, IoError>)
      requires Valid()
      modifies this, data
      ensures Valid() && (data == old(data) || fresh(data))
      ensures r == if offset + |bytes| <= MAX_DATA_SIZE then Ok(|bytes|) else Err(EFBIG)
      ensures Contents() == if r.Ok? then Spliced(old(Contents()), offset, bytes) else old(Contents())
    {
      var end := CheckedSize(offset, |bytes|);
      if end.Err? {
        return Err(end.error);
      }
      ghost var before := Contents();
      if end.value > len {
        Reallocate(end.value);
      }
      forall i | 0 <= i < |bytes| {
        data[offset + i] := bytes[i];
      }
      assert data[..len] == Spliced(before, offset, bytes);
      return Ok(|bytes|);
    }

    /** Setattr of the size: shrinking keeps the backing store, growing zero-fills. */
    method Truncate(size: U64) returns (err: Option<IoError>)
      requires Valid()
      modifies this
      ensures Valid() && (data == old(data) || fresh(data))
      ensures err == if size > MAX_DATA_SIZE then Some(EFBIG) else None
      ensures Contents() == if err.None? then Resized(old(Contents()), size) else old(Contents())
    {
      if size > MAX_DATA_SIZE {
        return Some(EFBIG);
      }
      if size < len {
        ghost var before := Contents();
        len := size;
        assert Contents() == Resized(before, size);
      } else if size > len {
        Reallocate(size);
      } else {
        assert Contents() == Resized(Contents(), size);
      }
      return None;
    }
  }

  // ---------------------------------------------------------------- the server's handlers

  class FileServer {
    const file: MemFile
    const msize: U32
    ghost var frames: seq<int>   // the sizes of the data frames that crossed the wire

    ghost predicate Valid()
      reads this, file
    {
      msize >= MIN_MSIZE && file.Valid() && AllFit(frames)
    }

    ghost predicate AllFit(sizes: seq<int>) { forall i :: 0 <= i < |sizes| ==> sizes[i] <= msize }

    constructor (file: MemFile, msize: U32)
      requires file.Valid() && msize >= MIN_MSIZE
      ensures Valid() && this.file == file && this.msize == msize && frames == []
    {
      this.file, this.msize, frames := file, msize, [];
    }

    method HandleRead(offset: U64, count: U32) returns (reply: seq<Byte>)
      requires Valid()
      modifies `frames
      ensures Valid() && reply == Slice(file.Contents(), offset, Clamp(msize, count))
    {
      var buf := new Byte[Clamp(msize, count)];
      var n := file.Read(buf, offset);
      frames := frames + [RreadSize(n)];
      return buf[..n];
    }

    /** A write reaches the handler only in a frame that fits msize. */
    method HandleWrite(offset: U64, bytes: seq<Byte>) returns (r: Result<nat, IoError>)
      requires Valid() && TwriteSize(|bytes|) <= msize
      modifies `frames, file, file.data
      ensures Valid() && (file.data == old(file.data) || fresh(file.data))
      ensures r == if offset + |bytes| <= MAX_DATA_SIZE then Ok(|bytes|) else Err(EFBIG)
      ensures file.Contents() == if r.Ok? then Spliced(old(file.Contents()), offset, bytes) else old(file.Contents())
    {
      frames := frames + [TwriteSize(|bytes|)];
      var w := file.Write(bytes, offset);
      if w.Err? {
        return Err(w.error);
      }
      if !(0 <= w.value <= |bytes|) {
        return Err(EIO);
      }
      return Ok(w.value);
    }
  }

  // ---------------------------------------------------------------- the client's file

  class ClientFile {
    const server: FileServer
    const iounit: U32

    constructor (server: FileServer, iounit: U32)
      ensures this.server == server && this.iounit == iounit
    {
      this.server, this.iounit := server, iounit;
    }

    method Cut(p: seq<Byte>, n: nat, max: nat) returns (chunk: seq<Byte>)
      requires n <= |p|
      ensures chunk == p[n..Min(n + max, |p|)]
    {
      chunk := p[n..];
      if |chunk| > max {
        chunk := chunk[..max];
      }
    }

    /** One Twrite: the next chunk is added whole, or not at all. */
    method WriteChunk(p: seq<Byte>, off: nat, n: nat, ghost before: seq<Byte>) returns (m: nat, err: Option<IoError>)
      requires server.Valid() && off + |p| <= UINT64_MAX && n < |p|
      requires server.file.Contents() == Written(before, off, p, n)
      modifies server`frames, server.file, server.file.data
      ensures server.Valid() && (server.file.data == old(server.file.data) || fresh(server.file.data))
      ensures n <= m <= |p| && server.file.Contents() == Written(before, off, p, m)
      ensures err.None? ==> m == Min(n + MaxChunk(server.msize, iounit), |p|) && off + m <= MAX_DATA_SIZE
      ensures err.Some? ==>
                && m == n && err == Some(EFBIG)
                && off + Min(n + MaxChunk(server.msize, iounit), |p|) > MAX_DATA_SIZE
    {
      var chunk := Cut(p, n, MaxChunk(server.msize, iounit));
      var r := server.HandleWrite(off + n, chunk);
      if r.Err? {
        return n, Some(r.error);
      }
      NextWritten(before, off, p, n, MaxChunk(server.msize, iounit));
      m := n + r.value;
      if r.value < |chunk| {
        return m, Some(ShortWrite);
      }
      return m, None;
    }

    method WriteChunks(p: seq<Byte>, off: nat) returns (n: nat, err: Option<IoError>)
      requires server.Valid() && off + |p| <= UINT64_MAX
      modifies server`frames, server.file, server.file.data
      ensures server.Valid()
      ensures n <= |p| && server.file.Contents() == Written(old(server.file.Contents()), off, p, n)
      ensures err.None? ==> n == |p|
      ensures err.Some? ==> err == Some(EFBIG) && off + Min(n + MaxChunk(server.msize, iounit), |p|) > MAX_DATA_SIZE
      ensures n > 0 ==> off + n <= MAX_DATA_SIZE
    {
      n, err := 0, None;
      ghost var before := server.file.Contents();
      while n < |p|
        invariant server.Valid() && (server.file.data == old(server.file.data) || fresh(server.file.data))
        invariant 0 <= n <= |p| && (n > 0 ==> off + n <= MAX_DATA_SIZE)
        invariant server.file.Contents() == Written(before, off, p, n) && err.None?
      {
        n, err := WriteChunk(p, off, n, before);
        if err.Some? {
          return;
        }
      }
    }

    /**
     Writing p at off leaves the file with exactly the reported prefix of p spliced in. The write is
     complete exactly when it stays within the file size limit; otherwise it stops at the first chunk
     that would not.
     */
    method WriteAt(p: seq<Byte>, off: int) returns (n: nat, err: Option<IoError>)
      requires server.Valid() && off <= UINT64_MAX / 2 && |p| <= UINT64_MAX / 2
      modifies server`frames, server.file, server.file.data
      ensures server.Valid() && n <= |p|
      ensures off < 0 ==> n == 0 && server.file.Contents() == old(server.file.Contents())
      ensures off >= 0 ==> server.file.Contents() == Written(old(server.file.Contents()), off, p, n)
      ensures off >= 0 && n > 0 ==> server.file.Contents()[off..off + n] == p[..n]
      ensures off >= 0 ==> Keeps(old(server.file.Contents()), server.file.Contents(), off, n)
      ensures err == Some(NegativeOffset) <==> p != [] && off < 0
      ensures err.None? <==> p == [] || (off >= 0 && off + |p| <= MAX_DATA_SIZE)
      ensures err.None? ==> n == |p|
      ensures err.Some? && off >= 0 ==> off + Min(n + MaxChunk(server.msize, iounit), |p|) > MAX_DATA_SIZE
    {
      if |p| == 0 {
        return 0, None;
      }
      if off < 0 {
        return 0, Some(NegativeOffset);
      }
      ghost var before := server.file.Contents();
      n, err := WriteChunks(p, off);
      SplicedBytes(before, off, p[..n]);
    }

    method ReadChunks(p: array<Byte>, off: nat) returns (n: nat, err: Option<IoError>)
      requires server.Valid() && p != server.file.data && off + p.Length <= UINT64_MAX
      modifies server`frames, p
      ensures server.Valid()
      ensures n <= p.Length && p[..n] == Slice(server.file.Contents(), off, p.Length)
      ensures err == if n < p.Length then Some(EOF) else None
      ensures forall i :: n <= i < p.Length ==> p[i] == old(p[i])
    {
      n, err := 0, None;
      ghost var c := server.file.Contents();
      while n < p.Length
        invariant server.Valid() && server.file.Contents() == c
        invariant 0 <= n <= p.Length && p[..n] == Slice(c, off, n)
        invariant forall i :: n <= i < p.Length ==> p[i] == old(p[i])
      {
        var count := Min(p.Length - n, MaxChunk(server.msize, iounit));
        var got := server.HandleRead(off + n, count);
        if |got| == 0 {
          NothingMore(c, off, n, p.Length, count);
          return n, Some(EOF);
        }
        ReadOn(c, off, n, count, got);
        Fill(p, n, got);
        n := n + |got|;
      }
    }

    /** The zero-copy delivery of a reply into the caller's buffer. */
    method Fill(p: array<Byte>, at: nat, bytes: seq<Byte>)
      requires at + |bytes| <= p.Length
      modifies p
      ensures p[..at + |bytes|] == old(p[..at]) + bytes
      ensures forall i :: at + |bytes| <= i < p.Length ==> p[i] == old(p[i])
    {
      forall i | 0 <= i < |bytes| {
        p[at + i] := bytes[i];
      }
    }

    /** Reading fills p with exactly the part of the file it covers, and reports EOF exactly when that is short. */
    method ReadAt(p: array<Byte>, off: int) returns (n: nat, err: Option<IoError>)
      requires server.Valid() && p != server.file.data && off <= UINT64_MAX / 2 && p.Length <= UINT64_MAX / 2
      modifies server`frames, p
      ensures server.Valid()
      ensures err == Some(NegativeOffset) <==> p.Length > 0 && off < 0
      ensures off >= 0 ==> n <= p.Length && p[..n] == Slice(server.file.Contents(), off, p.Length)
      ensures off >= 0 ==> err == if n < p.Length then Some(EOF) else None
      ensures off < 0 ==> n == 0
      ensures forall i :: n <= i < p.Length ==> p[i] == old(p[i])
    {
      if p.Length == 0 {
        assert p[..0] == [];
        return 0, None;
      }
      if off < 0 {
        return 0, Some(NegativeOffset);
      }
      n, err := ReadChunks(p, off);
    }
  }

  lemma ReadOn(c: seq<Byte>, off: nat, n: nat, count: nat, got: seq<Byte>)
    requires |Slice(c, off, n)| == n && got == Slice(c, off + n, count) && got != []
    ensures Slice(c, off, n + |got|) == Slice(c, off, n) + got
  {
    SliceJoin(c, off, n, |got|);
  }

  lemma NothingMore(c: seq<Byte>, off: nat, n: nat, length: nat, count: nat)
    requires |Slice(c, off, n)| == n && n < length && count > 0 && Slice(c, off + n, count) == []
    ensures Slice(c, off, length) == Slice(c, off, n)
  {}
}
