/** Directory entries packed into Rreaddir data (proto/dirent.go). */
module Dirents {
  import opened Common
  import opened Wire

  datatype Qid = Qid(kind: Byte, version: U32, path: U64)
  datatype Dirent = Dirent(qid: Qid, offset: U64, kind: Byte, name: seq<Byte>)

  const MIN_ENTRY := QID_SIZE + 8 + 1 + 2

  function EncodeQid(q: Qid): (b: seq<Byte>)
    ensures |b| == QID_SIZE
  {
    [q.kind] + LE(4, q.version) + LE(8, q.path)
  }

  function EncodeDirent(d: Dirent): (b: seq<Byte>)
    ensures |b| == MIN_ENTRY + |d.name|
  {
    EncodeQid(d.qid) + (LE(8, d.offset) + ([d.kind] + (LE(2, |d.name|) + d.name)))
  }

  function EncodeAll(ds: seq<Dirent>): seq<Byte> {
    if ds == [] then [] else EncodeDirent(ds[0]) + EncodeAll(ds[1..])
  }

  /** A name whose length does not fit its 2-byte field is never packed. */
  predicate Packable(d: Dirent) { |d.name| <= UINT16_MAX }

  /**
   The entries packed into the given room: in order, leaving out unpackable ones, up to the first that
   does not fit.
   */
  function Packed(room: int, ds: seq<Dirent>): seq<Dirent> {
    if ds == [] then []
    else if !Packable(ds[0]) then Packed(room, ds[1..])
    else if MIN_ENTRY + |ds[0].name| > room then []
    else [ds[0]] + Packed(room - MIN_ENTRY - |ds[0].name|, ds[1..])
  }

  /** What the entry at i adds to the entries packed before it. */
  lemma PackNext(room: int, ds: seq<Dirent>, i: nat, packed: seq<Dirent>)
    requires i < |ds|
    ensures packed + Packed(room, ds[i..])
            == if !Packable(ds[i]) then packed + Packed(room, ds[i + 1..])
               else if MIN_ENTRY + |ds[i].name| > room then packed
               else (packed + [ds[i]]) + Packed(room - MIN_ENTRY - |ds[i].name|, ds[i + 1..])
  {
    assert ds[i..][0] == ds[i] && ds[i..][1..] == ds[i + 1..];
  }

  lemma {:induction false} EncodeAllAppend(ds: seq<Dirent>, d: Dirent)
    ensures EncodeAll(ds + [d]) == EncodeAll(ds) + EncodeDirent(d)
  {
    if ds == [] {
      assert EncodeAll([d]) == EncodeDirent(d) + EncodeAll([]);
      assert [] + [d] == [d];
    } else {
      EncodeAllAppend(ds[1..], d);
      Assoc(EncodeDirent(ds[0]), EncodeAll(ds[1..]), EncodeDirent(d));
      assert (ds + [d])[1..] == ds[1..] + [d] && (ds + [d])[0] == ds[0];
    }
  }

  method PutQid(dst: array<Byte>, off: nat, q: Qid)
    requires off + QID_SIZE <= dst.Length
    modifies dst
    ensures dst[..off + QID_SIZE] == old(dst[..off]) + EncodeQid(q)
    ensures forall i :: off + QID_SIZE <= i < dst.Length ==> dst[i] == old(dst[i])
  {
    ghost var start := dst[..off];
    PutBytes(dst, off, [q.kind]);
    PutLE(dst, off + 1, 4, q.version);
    PutLE(dst, off + 5, 8, q.path);
    Assoc(start, [q.kind], LE(4, q.version));
    Assoc(start, [q.kind] + LE(4, q.version), LE(8, q.path));
  }

  lemma EncodedInOrder(start: seq<Byte>, d: Dirent)
    ensures start + EncodeQid(d.qid) + LE(8, d.offset) + [d.kind] + LE(2, |d.name|) + d.name == start + EncodeDirent(d)
  {
    var s1, s2, s3 := start + EncodeQid(d.qid), LE(2, |d.name|) + d.name, [d.kind];
    Assoc(s1 + LE(8, d.offset) + s3, LE(2, |d.name|), d.name);
    Assoc(s1 + LE(8, d.offset), s3, s2);
    Assoc(s1, LE(8, d.offset), s3 + s2);
    Assoc(start, EncodeQid(d.qid), LE(8, d.offset) + (s3 + s2));
  }

  method PutDirent(dst: array<Byte>, off: nat, d: Dirent) returns (end: nat)
    requires off + MIN_ENTRY + |d.name| <= dst.Length
    modifies dst
    ensures end == off + MIN_ENTRY + |d.name|
    ensures dst[..end] == old(dst[..off]) + EncodeDirent(d)
    ensures forall i :: end <= i < dst.Length ==> dst[i] == old(dst[i])
  {
    end := off + MIN_ENTRY + |d.name|;
    ghost var start := dst[..off];
    PutQid(dst, off, d.qid);
    PutLE(dst, off + 13, 8, d.offset);
    PutBytes(dst, off + 21, [d.kind]);
    PutLE(dst, off + 22, 2, |d.name|);
    PutBytes(dst, off + 24, d.name);
    EncodedInOrder(start, d);
  }

  method EncodeDirentsInto(dst: array<Byte>, dirents: seq<Dirent>) returns (off: nat, count: nat)
    modifies dst
    ensures off <= dst.Length && dst[..off] == EncodeAll(Packed(dst.Length, dirents))
    ensures count == |Packed(dst.Length, dirents)|
    ensures forall i :: off <= i < dst.Length ==> dst[i] == old(dst[i])
  {
    off, count := 0, 0;
    ghost var packed: seq<Dirent> := [];
    var i := 0;
    while i < |dirents|
      invariant 0 <= i <= |dirents| && off <= dst.Length && count == |packed|
      invariant dst[..off] == EncodeAll(packed)
      invariant Packed(dst.Length, dirents) == packed + Packed(dst.Length - off, dirents[i..])
      invariant forall k :: off <= k < dst.Length ==> dst[k] == old(dst[k])
    {
      var d := dirents[i];
      PackNext(dst.Length - off, dirents, i, packed);
      i := i + 1;
      if |d.name| > UINT16_MAX {
        continue;
      }
      if off + MIN_ENTRY + |d.name| > dst.Length {
        return;
      }
      var end := PutDirent(dst, off, d);
      EncodeAllAppend(packed, d);
      packed := packed + [d];
      off := end;
      count := count + 1;
    }
    assert dirents[i..] == [] && packed + [] == packed;
  }

  // ---------------------------------------------------------------- parsing

  datatype Parsed = Parsed(entries: seq<Dirent>, ok: bool)

  function Field(data: seq<Byte>, off: nat, n: nat): nat
    requires off + n <= |data|
  {
    UnLE(data[off..off + n])
  }

  lemma FieldBound(data: seq<Byte>, off: nat, n: nat)
    requires off + n <= |data|
    ensures Field(data, off, n) < Pow256(n)
  {
    UnLEBound(data[off..off + n]);
  }

  /** The fixed part of an entry; the name is still to come. */
  function Header(data: seq<Byte>): (d: Dirent)
    requires |data| >= MIN_ENTRY
  {
    Widths();
    FieldBound(data, 1, 4);
    FieldBound(data, 5, 8);
    FieldBound(data, 13, 8);
    Dirent(Qid(data[0], Field(data, 1, 4), Field(data, 5, 8)), Field(data, 13, 8), data[21], [])
  }

  function Parse(data: seq<Byte>): Parsed {
    if data == [] then Parsed([], true)
    else if |data| < MIN_ENTRY then Parsed([], false)
    else
      var size := MIN_ENTRY + Field(data, 22, 2);
      if size > |data| then Parsed([], false)
      else
        var rest := Parse(data[size..]);
        Parsed([Header(data).(name := data[MIN_ENTRY..size])] + rest.entries, rest.ok)
  }

  method ParseDirents(data: seq<Byte>) returns (out: seq<Dirent>, ok: bool)
    ensures Parsed(out, ok) == Parse(data)
  {
    out := [];
    var off := 0;
    while off < |data|
      invariant 0 <= off <= |data|
      invariant Parse(data) == Parsed(out + Parse(data[off..]).entries, Parse(data[off..]).ok)
    {
      var here := data[off..];
      if |here| < MIN_ENTRY {
        return out, false;
      }
      var d := Header(here);
      var nameLen := Field(here, 22, 2);
      if nameLen > |here| - MIN_ENTRY {
        return out, false;
      }
      d := d.(name := here[MIN_ENTRY..MIN_ENTRY + nameLen]);
      off := off + MIN_ENTRY + nameLen;
      ghost var rest := Parse(data[off..]);
      assert here[MIN_ENTRY + nameLen..] == data[off..];
      assert Parse(here) == Parsed([d] + rest.entries, rest.ok);
      assert out + ([d] + rest.entries) == (out + [d]) + rest.entries;
      out := out + [d];
    }
    assert data[off..] == [];
    return out, true;
  }

  // ---------------------------------------------------------------- round trip

  lemma FieldAt(before: seq<Byte>, n: nat, v: nat, after: seq<Byte>)
    requires v < Pow256(n)
    ensures Field(before + LE(n, v) + after, |before|, n) == v
  {
    LERoundTrip(n, v);
    assert (before + LE(n, v) + after)[|before|..|before| + n] == LE(n, v);
  }

  lemma QidRoundTrip(q: Qid, rest: seq<Byte>)
    ensures var b := EncodeQid(q) + rest;
            b[0] == q.kind && Field(b, 1, 4) == q.version && Field(b, 5, 8) == q.path
  {
    Widths();
    var b := EncodeQid(q) + rest;
    FieldAt([q.kind], 4, q.version, LE(8, q.path) + rest);
    assert b == [q.kind] + LE(4, q.version) + (LE(8, q.path) + rest);
    FieldAt([q.kind] + LE(4, q.version), 8, q.path, rest);
    assert b == ([q.kind] + LE(4, q.version)) + LE(8, q.path) + rest;
  }

  /** The bytes of an entry, cut at the given field. */
  lemma CutAtOffset(d: Dirent, rest: seq<Byte>)
    ensures Field(EncodeDirent(d) + rest, 13, 8) == d.offset
  {
    Widths();
    var tail := [d.kind] + (LE(2, |d.name|) + d.name);
    FieldAt(EncodeQid(d.qid), 8, d.offset, tail + rest);
    assert EncodeDirent(d) + rest == EncodeQid(d.qid) + LE(8, d.offset) + (tail + rest);
  }

  lemma CutAtName(d: Dirent, rest: seq<Byte>)
    requires Packable(d)
    ensures (EncodeDirent(d) + rest)[21] == d.kind
    ensures Field(EncodeDirent(d) + rest, 22, 2) == |d.name|
  {
    Widths();
    var head := EncodeQid(d.qid) + LE(8, d.offset) + [d.kind];
    FieldAt(head, 2, |d.name|, d.name + rest);
    assert EncodeDirent(d) + rest == head + LE(2, |d.name|) + (d.name + rest);
  }

  lemma HeaderRoundTrip(d: Dirent, rest: seq<Byte>)
    requires Packable(d)
    ensures Header(EncodeDirent(d) + rest) == d.(name := [])
    ensures Field(EncodeDirent(d) + rest, 22, 2) == |d.name|
  {
    var tail := LE(8, d.offset) + ([d.kind] + (LE(2, |d.name|) + d.name));
    QidRoundTrip(d.qid, tail + rest);
    assert EncodeDirent(d) + rest == EncodeQid(d.qid) + (tail + rest);
    CutAtOffset(d, rest);
    CutAtName(d, rest);
  }

  /** Parsing packed entries gives the same entries, for every list of packable entries. */
  lemma {:induction false} DirentsRoundTrip(ds: seq<Dirent>)
    requires forall i :: 0 <= i < |ds| ==> Packable(ds[i])
    ensures Parse(EncodeAll(ds)) == Parsed(ds, true)
  {
    if ds != [] {
      var d, rest := ds[0], EncodeAll(ds[1..]);
      var b := EncodeDirent(d) + rest;
      HeaderRoundTrip(d, rest);
      DirentsRoundTrip(ds[1..]);
      var size := MIN_ENTRY + |d.name|;
      assert b[size..] == rest;
      assert b[MIN_ENTRY..size] == d.name;
      assert ds == [d] + ds[1..];
    }
  }

  lemma {:induction false} PackedIsPackable(room: int, ds: seq<Dirent>)
    ensures forall i :: 0 <= i < |Packed(room, ds)| ==> Packable(Packed(room, ds)[i])
    decreases |ds|
  {
    if ds != [] {
      PackedIsPackable(room, ds[1..]);
      PackedIsPackable(room - MIN_ENTRY - |ds[0].name|, ds[1..]);
    }
  }

  // ---------------------------------------------------------------- what is packed, and what a parse means

  /** The entries whose names fit their length field, in order. */
  function Packables(ds: seq<Dirent>): seq<Dirent> {
    if ds == [] then [] else (if Packable(ds[0]) then [ds[0]] else []) + Packables(ds[1..])
  }

  /** The packed entries are the longest run of packable ones, from the first on, that fits the room. */
  lemma {:induction false} PackedFillsRoom(room: nat, ds: seq<Dirent>)
    ensures var p, all := Packed(room, ds), Packables(ds);
            && p <= all && |EncodeAll(p)| <= room
            && (|p| < |all| ==> |EncodeAll(p)| + MIN_ENTRY + |all[|p|].name| > room)
    decreases |ds|
  {
    if ds != [] {
      if !Packable(ds[0]) {
        PackedFillsRoom(room, ds[1..]);
        assert Packables(ds) == Packables(ds[1..]);
      } else if MIN_ENTRY + |ds[0].name| <= room {
        PackedFillsRoom(room - MIN_ENTRY - |ds[0].name|, ds[1..]);
        assert Packed(room, ds)[1..] == Packed(room - MIN_ENTRY - |ds[0].name|, ds[1..]);
      }
    }
  }

  /** The bytes hold no whole entry at their start. */
  predicate Corrupt(data: seq<Byte>) {
    data != [] && (|data| < MIN_ENTRY || MIN_ENTRY + UnLE(data[22..24]) > |data|)
  }

  lemma HeaderCanonical(data: seq<Byte>)
    requires |data| >= MIN_ENTRY && MIN_ENTRY + Field(data, 22, 2) <= |data|
    ensures var size := MIN_ENTRY + Field(data, 22, 2);
            var d := Header(data).(name := data[MIN_ENTRY..size]);
            Packable(d) && data == EncodeDirent(d) + data[size..]
  {
    var size := MIN_ENTRY + Field(data, 22, 2);
    Widths();
    FieldBound(data, 22, 2);
    UnLERoundTrip(data[1..5]);
    UnLERoundTrip(data[5..13]);
    UnLERoundTrip(data[13..21]);
    UnLERoundTrip(data[22..24]);
    assert data[..QID_SIZE] == [data[0]] + data[1..5] + data[5..13];
    assert data == data[..13] + (data[13..21] + ([data[21]] + (data[22..24] + data[24..size]))) + data[size..];
  }

  /** What parsing returns, encoded again, is the data up to its end or to the first entry that is cut short. */
  lemma {:induction false} ParseCanonical(data: seq<Byte>) returns (rest: seq<Byte>)
    ensures data == EncodeAll(Parse(data).entries) + rest
    ensures if Parse(data).ok then rest == [] else Corrupt(rest)
    ensures forall i :: 0 <= i < |Parse(data).entries| ==> Packable(Parse(data).entries[i])
    decreases |data|
  {
    if data == [] || |data| < MIN_ENTRY || MIN_ENTRY + Field(data, 22, 2) > |data| {
      rest := data;
    } else {
      var size := MIN_ENTRY + Field(data, 22, 2);
      HeaderCanonical(data);
      rest := ParseCanonical(data[size..]);
      var d, more := Header(data).(name := data[MIN_ENTRY..size]), Parse(data[size..]).entries;
      assert ([d] + more)[1..] == more;
      Assoc(EncodeDirent(d), EncodeAll(more), rest);
    }
  }
}
