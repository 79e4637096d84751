/**
 Extended attributes on the simple path: the server's write and read fids (server/bridge.go, the clunk
 in server/dispatch.go) and the client's two-phase loops over them (client/advanced_xattr.go).
 */
module Xattr {
  import opened Chunks
  import opened Common

  datatype Errno = EBADF | EINVAL | ENOSYS | ENOSPC | EIO | Node(code: nat)

  datatype Status = Allocated | Opened | XattrWrite

  /** What a node can do with extended attributes. */
  datatype Caps = Caps(setter: bool, remover: bool)

  /** A call into the node made when the fid is clunked. */
  datatype Call = Set(name: string, value: seq<Byte>, flags: U32) | Remove(name: string)

  function Flat(pieces: seq<seq<Byte>>): seq<Byte> {
    if pieces == [] then [] else Flat(pieces[..|pieces| - 1]) + pieces[|pieces| - 1]
  }

  // ---------------------------------------------------------------- the server's write fid

  /** A fid between Txattrcreate and its clunk. Every method is one critical section of the fid's mutex. */
  class WriteFid {
    var status: Status
    var closing: bool
    var name: string
    var size: U64
    var flags: U32
    var caps: Caps
    var data: seq<Byte>
    ghost var acked: seq<seq<Byte>>   // the writes that were answered with Rwrite, in order

    /** The buffer is what has been acknowledged, and never more than was declared. */
    ghost predicate Valid()
      reads this
    {
      status.XattrWrite? ==> data == Flat(acked) && |data| <= size
    }

    constructor (status: Status)
      requires !status.XattrWrite?
      ensures Valid() && this.status == status && !closing && acked == []
    {
      this.status, closing, name, size, flags, caps, data, acked := status, false, "", 0, 0, Caps(false, false), [], [];
    }

    /** `checked` is the node the support check saw and `stored` the node kept for the commit. */
    method Create(attr: string, declared: U64, how: U32, msize: U32, checked: Caps,
                  stored: Caps) returns (err: Option<Errno>)
      requires Valid()
      modifies this
      ensures Valid() && closing == old(closing)
      ensures err == if old(status) != Allocated then Some(EBADF)
                     else if declared > msize then Some(EINVAL)
                     else if (if declared == 0 then !checked.remover else !checked.setter) then Some(ENOSYS)
                     else None
      ensures err.Some? ==> unchanged(this)
      ensures err.None? ==>
                && status == XattrWrite && name == attr && size == declared && flags == how && caps == stored
                && data == [] && acked == []
    {
      if status != Allocated {
        return Some(EBADF);
      }
      if declared > msize {
        return Some(EINVAL);
      }
      if declared == 0 {
        if !checked.remover {
          return Some(ENOSYS);
        }
      } else if !checked.setter {
        return Some(ENOSYS);
      }
      status, name, size, flags, caps, data, acked := XattrWrite, attr, declared, how, stored, [], [];
      return None;
    }

    /** A write is acknowledged exactly when the fid is not closing and the declared size still holds it. */
    method Write(bytes: seq<Byte>) returns (r: Result<nat, Errno>)
      requires Valid() && status == XattrWrite
      modifies this
      ensures Valid() && unchanged(`status, `closing, `name, `size, `flags, `caps)
      ensures r == if closing then Err(EBADF) else if |old(data)| + |bytes| > size then Err(ENOSPC) else Ok(|bytes|)
      ensures data == if r.Ok? then old(data) + bytes else old(data)
      ensures acked == if r.Ok? then old(acked) + [bytes] else old(acked)
    {
      if closing {
        return Err(EBADF);
      }
      if |data| + |bytes| > size {
        return Err(ENOSPC);
      }
      data := data + bytes;
      acked := acked + [bytes];
      assert acked[..|acked| - 1] == old(acked);
      return Ok(|bytes|);
    }

    /**
     The node is called only with the concatenation of every acknowledged write, and only when that is
     exactly as long as declared; a declared size of zero removes the attribute instead.
     */
    method Clunk(outcome: Option<Errno>) returns (err: Option<Errno>, call: Option<Call>)
      requires Valid() && status == XattrWrite && !closing
      modifies `closing
      ensures Valid() && closing
      ensures call == if size == 0 then (if caps.remover then Some(Remove(name)) else None)
                      else if |Flat(acked)| == size && caps.setter then Some(Set(name, Flat(acked), flags))
                      else None
      ensures err == if call.Some? then outcome
                     else if size == 0 then None
                     else if |Flat(acked)| != size then Some(EIO) else Some(ENOSYS)
    {
      closing := true;
      if size == 0 {
        if caps.remover {
          return outcome, Some(Remove(name));
        }
        return None, None;
      }
      if |data| != size {
        return Some(EIO), None;
      }
      if !caps.setter {
        return Some(ENOSYS), None;
      }
      return outcome, Some(Set(name, data, flags));
    }
  }

  // ---------------------------------------------------------------- the client's set

  datatype ClientError = Remote(errno: Errno) | TooLarge | ShortRead | ShortWrite | OverRead | NoChunk

  /** msize less the frame overhead; unlike a file's chunk it is not capped by MaxDataSize. */
  function XattrChunk(msize: U32): (c: int)
    ensures c >= 0 && (c > 0 ==> TwriteSize(c) == msize - 1) && (c == 0 ==> TwriteSize(1) >= msize)
  {
    if msize <= IO_FRAME_OVERHEAD then 0 else msize - IO_FRAME_OVERHEAD
  }

  /** A Twrite carries at most MaxDataSize bytes; the encoder refuses more before anything is sent. */
  method Twrite(fid: WriteFid, bytes: seq<Byte>, msize: U32) returns (r: Result<nat, ClientError>)
    requires fid.Valid() && fid.status == XattrWrite && TwriteSize(|bytes|) <= msize
    modifies fid
    ensures fid.Valid() && unchanged(fid`status, fid`closing, fid`name, fid`size, fid`flags, fid`caps)
    ensures r.Ok? <==> |bytes| <= MAX_DATA_SIZE && !fid.closing && |old(fid.data)| + |bytes| <= fid.size
    ensures r.Ok? ==> r.value == |bytes|
    ensures fid.data == if r.Ok? then old(fid.data) + bytes else old(fid.data)
  {
    if |bytes| > MAX_DATA_SIZE {
      return Err(TooLarge);
    }
    var w := fid.Write(bytes);
    match w
    case Err(e) => return Err(Remote(e));
    case Ok(n) => return Ok(n);
  }

  /** Sends the value in order; it stops early only at a chunk too large to encode. */
  method WriteValue(fid: WriteFid, value: seq<Byte>, msize: U32) returns (err: Option<ClientError>)
    requires fid.Valid() && fid.status == XattrWrite && !fid.closing && fid.data == [] && fid.size == |value|
    requires msize >= MIN_MSIZE
    modifies fid
    ensures fid.Valid() && unchanged(fid`status, fid`closing, fid`name, fid`size, fid`flags, fid`caps)
    ensures err.None? <==> Min(XattrChunk(msize), |value|) <= MAX_DATA_SIZE
    ensures err.None? ==> fid.data == value
    ensures err.Some? ==> |fid.data| < |value|
  {
    var chunk := XattrChunk(msize);
    var off := 0;
    while off < |value|
      invariant 0 <= off <= |value| && fid.Valid() && fid.data == value[..off]
      invariant unchanged(fid`status, fid`closing, fid`name, fid`size, fid`flags, fid`caps)
      invariant off > 0 ==> Min(chunk, |value|) <= MAX_DATA_SIZE
    {
      var end := Min(off + chunk, |value|);
      var r := Twrite(fid, value[off..end], msize);
      if r.Err? {
        return Some(r.error);
      }
      if r.value == 0 {
        return Some(ShortWrite);
      }
      assert value[..off] + value[off..end] == value[..end];
      off := off + r.value;
    }
    assert value[..off] == value;
    return None;
  }

  /**
   Setting an attribute calls the node with exactly the given value, or fails without calling it. It
   fails exactly when the server refuses to create, or the first chunk is too large for one Twrite.
   */
  method XattrSet(clone: WriteFid, attr: string, value: seq<Byte>, how: U32, msize: U32, caps: Caps,
                  outcome: Option<Errno>)
    returns (err: Option<ClientError>, call: Option<Call>)
    requires clone.Valid() && clone.status == Allocated && !clone.closing && clone.acked == []
    requires msize >= MIN_MSIZE && |value| <= UINT64_MAX
    modifies clone
    ensures call.Some? <==>
            && |value| <= msize && (if value == [] then caps.remover else caps.setter)
            && Min(XattrChunk(msize), |value|) <= MAX_DATA_SIZE
    ensures call.Some? ==> call.value == if value == [] then Remove(attr) else Set(attr, value, how)
    ensures call.Some? ==> err == if outcome.Some? then Some(Remote(outcome.value)) else None
    ensures call.None? ==> err.Some?
  {
    var created := clone.Create(attr, |value|, how, msize, caps, caps);
    if created.Some? {
      return Some(Remote(created.value)), None;
    }
    var failed := WriteValue(clone, value, msize);
    var e, committed := clone.Clunk(outcome);
    if failed.Some? {
      return failed, committed;
    }
    return if e.Some? then Some(Remote(e.value)) else None, committed;
  }

  // ---------------------------------------------------------------- reading a value

  /** What the server returns for a read of the cached value. */
  function ReadReply(value: seq<Byte>, msize: U32, offset: U64, count: U32): seq<Byte>
    requires msize >= MIN_MSIZE
  {
    if offset >= |value| then [] else value[offset..Min(offset + Clamp(msize, count), |value|)]
  }

  method CopyInto(buf: array<Byte>, off: nat, bytes: seq<Byte>)
    requires off + |bytes| <= buf.Length
    modifies buf
    ensures buf[..off + |bytes|] == old(buf[..off]) + bytes
  {
    forall i | 0 <= i < |bytes| {
      buf[off + i] := bytes[i];
    }
  }

  /** The value comes back whole for every msize, unless it is larger than the client accepts. */
  method XattrGet(value: seq<Byte>, msize: U32, clunked: Option<Errno>) returns (r: Result<seq<Byte>, ClientError>)
    requires msize >= MIN_MSIZE && |value| <= UINT64_MAX
    ensures r == if |value| > MAX_DATA_SIZE then Err(TooLarge)
                 else if clunked.Some? then Err(Remote(clunked.value)) else Ok(value)
  {
    var size := |value|;
    if size > MAX_DATA_SIZE {
      return Err(TooLarge);
    }
    if size == 0 {
      return if clunked.Some? then Err(Remote(clunked.value)) else Ok([]);
    }
    var buf := new Byte[size];
    var off := 0;
    var chunk := XattrChunk(msize);
    if chunk == 0 {
      return Err(NoChunk);
    }
    while off < size
      invariant 0 <= off <= size && buf[..off] == value[..off]
    {
      var remaining := size - off;
      var want := Min(chunk, remaining);
      var bytes := ReadReply(value, msize, off, want);
      if |bytes| == 0 {
        return Err(ShortRead);
      }
      if |bytes| > remaining {
        return Err(OverRead);
      }
      CopyInto(buf, off, bytes);
      assert value[..off] + bytes == value[..off + |bytes|];
      off := off + |bytes|;
    }
    assert buf[..] == value;
    return if clunked.Some? then Err(Remote(clunked.value)) else Ok(buf[..]);
  }

  // ---------------------------------------------------------------- listing names

  /** The server's list: each name followed by a NUL. */
  function ListBytes(names: seq<seq<Byte>>): seq<Byte> {
    if names == [] then [] else names[0] + [0] + ListBytes(names[1..])
  }

  function ListSize(names: seq<seq<Byte>>): (n: nat)
    ensures n == |ListBytes(names)|
  {
    if names == [] then 0 else |names[0]| + 1 + ListSize(names[1..])
  }

  method EncodeList(names: seq<seq<Byte>>) returns (buf: array<Byte>)
    ensures fresh(buf) && buf[..] == ListBytes(names)
  {
    var size := 0;
    assert names[0..] == names;
    for i := 0 to |names|
      invariant size + ListSize(names[i..]) == ListSize(names)
    {
      NextName(names, i, []);
      size := size + |names[i]| + 1;
    }
    assert names[|names|..] == [];
    buf := new Byte[size];
    FillList(buf, names);
  }

  lemma NextName(names: seq<seq<Byte>>, i: nat, done: seq<Byte>)
    requires i < |names|
    ensures ListSize(names[i..]) == |names[i]| + 1 + ListSize(names[i + 1..])
    ensures done + ListBytes(names[i..]) == (done + names[i] + [0]) + ListBytes(names[i + 1..])
  {
    assert names[i..][0] == names[i] && names[i..][1..] == names[i + 1..];
  }

  method FillList(buf: array<Byte>, names: seq<seq<Byte>>)
    requires buf.Length == ListSize(names)
    modifies buf
    ensures buf[..] == ListBytes(names)
  {
    var curr := 0;
    assert names[0..] == names && buf[..0] + ListBytes(names) == ListBytes(names);
    for i := 0 to |names|
      invariant 0 <= curr && curr + ListSize(names[i..]) == buf.Length
      invariant buf[..curr] + ListBytes(names[i..]) == ListBytes(names)
    {
      ghost var done := buf[..curr];
      NextName(names, i, done);
      CopyInto(buf, curr, names[i]);
      CopyInto(buf, curr + |names[i]|, [0]);
      curr := curr + |names[i]| + 1;
      assert buf[..curr] == done + names[i] + [0];
    }
    assert names[|names|..] == [] && buf[..curr] + [] == buf[..];
  }

  /** The pieces between NULs, as strings.Split cuts them. */
  function Split(b: seq<Byte>): (parts: seq<seq<Byte>>)
    ensures parts != []
  {
    if b == [] then [[]]
    else
      var rest := Split(b[1..]);
      if b[0] == 0 then [[]] + rest else [[b[0]] + rest[0]] + rest[1..]
  }

  function NonEmpty(parts: seq<seq<Byte>>): seq<seq<Byte>> {
    if parts == [] then [] else (if parts[0] != [] then [parts[0]] else []) + NonEmpty(parts[1..])
  }

  /** The client's view of a list. */
  function ParseList(b: seq<Byte>): seq<seq<Byte>> { if b == [] then [] else NonEmpty(Split(b)) }

  method FilterNames(parts: seq<seq<Byte>>) returns (out: seq<seq<Byte>>)
    ensures out == NonEmpty(parts)
  {
    out := [];
    for i := 0 to |parts|
      invariant out + NonEmpty(parts[i..]) == NonEmpty(parts)
    {
      assert parts[i..][0] == parts[i] && parts[i..][1..] == parts[i + 1..];
      ghost var rest := NonEmpty(parts[i + 1..]);
      if parts[i] != [] {
        assert out + ([parts[i]] + rest) == (out + [parts[i]]) + rest;
        out := out + [parts[i]];
      } else {
        assert [] + rest == rest;
      }
    }
    assert parts[|parts|..] == [] && out + [] == out;
  }

  predicate LegalName(name: seq<Byte>) { name != [] && 0 !in name }

  predicate LegalNames(names: seq<seq<Byte>>) { forall i :: 0 <= i < |names| ==> LegalName(names[i]) }

  lemma {:induction false} SplitFirst(name: seq<Byte>, rest: seq<Byte>)
    requires 0 !in name
    ensures Split(name + [0] + rest) == [name] + Split(rest)
  {
    if name == [] {
      assert ([] + [0] + rest)[1..] == rest;
    } else {
      SplitFirst(name[1..], rest);
      assert (name + [0] + rest)[1..] == name[1..] + [0] + rest;
      assert name == [name[0]] + name[1..];
    }
  }

  lemma {:induction false} ListRoundTrips(names: seq<seq<Byte>>)
    requires LegalNames(names)
    ensures NonEmpty(Split(ListBytes(names))) == names
  {
    if names == [] {
      assert NonEmpty([[]]) == NonEmpty([]);
    } else {
      SplitFirst(names[0], ListBytes(names[1..]));
      ListRoundTrips(names[1..]);
      var rest := Split(ListBytes(names[1..]));
      assert ([names[0]] + rest)[1..] == rest;
      assert LegalName(names[0]);
    }
  }

  lemma {:induction false} SplitHasNoNul(b: seq<Byte>)
    ensures forall i :: 0 <= i < |Split(b)| ==> 0 !in Split(b)[i]
  {
    if b != [] {
      SplitHasNoNul(b[1..]);
    }
  }

  lemma {:induction false} NonEmptyIsLegal(parts: seq<seq<Byte>>)
    requires forall i :: 0 <= i < |parts| ==> 0 !in parts[i]
    ensures LegalNames(NonEmpty(parts))
  {
    if parts != [] {
      NonEmptyIsLegal(parts[1..]);
    }
  }

  /** Listing returns the names that were listed exactly when none is empty or holds a NUL. */
  lemma ListRoundTripsIffLegal(names: seq<seq<Byte>>)
    ensures ParseList(ListBytes(names)) == names <==> LegalNames(names)
  {
    SplitHasNoNul(ListBytes(names));
    NonEmptyIsLegal(Split(ListBytes(names)));
    if LegalNames(names) {
      ListRoundTrips(names);
    }
  }
}
