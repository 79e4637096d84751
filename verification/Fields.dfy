/**
 The fields 9P2000.u messages are made of, and their wire forms (proto/encode.go, proto/decode.go, the
 walk lists and data fields of proto/messages.go, the nested stat of proto/p9u/messages.go).
 */
module Fields {
  import opened Common
  import opened ListCodec
  import opened Wire
  import D = Dirents

  type Qid = D.Qid

  lemma Fits2(v: nat)
    requires v <= UINT16_MAX
    ensures v < Pow256(2)
  {
    Widths();
  }

  lemma Fits4(v: nat)
    requires v <= UINT32_MAX
    ensures v < Pow256(4)
  {
    Widths();
  }

  // ---------------------------------------------------------------- integers, strings and QIDs

  datatype SimpleKind = IntK(n: nat) | StrK | QidK

  datatype Simple = Int(n: nat, v: nat) | Str(s: seq<Byte>) | QidF(q: Qid)

  function SimpleKindOf(f: Simple): SimpleKind {
    match f
    case Int(n, _) => IntK(n)
    case Str(_) => StrK
    case QidF(_) => QidK
  }

  /** What the encoder accepts and the field's width holds. */
  predicate LegalSimple(f: Simple) {
    match f
    case Int(n, v) => v < Pow256(n)
    case Str(s) => |s| <= UINT16_MAX
    case QidF(_) => true
  }

  function EncodeSimple(f: Simple): seq<Byte> {
    match f
    case Int(n, v) => LE(n, v)
    case Str(s) => LE(2, |s|) + s
    case QidF(q) => D.EncodeQid(q)
  }

  function DecodeInt(n: nat, b: seq<Byte>): Decoded<nat> {
    if |b| < n then None else Some((UnLE(b[..n]), b[n..]))
  }

  function DecodeStr(b: seq<Byte>): Decoded<seq<Byte>> {
    if |b| < 2 then None
    else
      var n := UnLE(b[..2]);
      if |b| - 2 < n then None else Some((b[2..2 + n], b[2 + n..]))
  }

  function DecodeQid(b: seq<Byte>): Decoded<Qid> {
    if |b| < QID_SIZE then None
    else
      Widths();
      UnLEBound(b[1..5]);
      UnLEBound(b[5..13]);
      Some((D.Qid(b[0], UnLE(b[1..5]), UnLE(b[5..13])), b[13..]))
  }

  function DecodeSimple(k: SimpleKind, b: seq<Byte>): Decoded<Simple> {
    match k
    case IntK(n) => (match DecodeInt(n, b) case None => None case Some((v, rest)) => Some((Int(n, v), rest)))
    case StrK => (match DecodeStr(b) case None => None case Some((s, rest)) => Some((Str(s), rest)))
    case QidK => (match DecodeQid(b) case None => None case Some((q, rest)) => Some((QidF(q), rest)))
  }

  lemma IntRoundTrip(n: nat, v: nat, rest: seq<Byte>)
    requires v < Pow256(n)
    ensures DecodeInt(n, LE(n, v) + rest) == Some((v, rest))
  {
    LERoundTrip(n, v);
    assert (LE(n, v) + rest)[..n] == LE(n, v);
  }

  lemma StrRoundTrip(s: seq<Byte>, rest: seq<Byte>)
    requires |s| <= UINT16_MAX
    ensures DecodeStr(LE(2, |s|) + s + rest) == Some((s, rest))
  {
    Widths();
    LERoundTrip(2, |s|);
    var b := LE(2, |s|) + s + rest;
    assert b[..2] == LE(2, |s|) && b[2..2 + |s|] == s && b[2 + |s|..] == rest;
  }

  lemma SimpleRoundTrip(f: Simple, rest: seq<Byte>)
    requires LegalSimple(f)
    ensures DecodeSimple(SimpleKindOf(f), EncodeSimple(f) + rest) == Some((f, rest))
  {
    match f
    case Int(n, v) => IntRoundTrip(n, v, rest);
    case Str(s) => StrRoundTrip(s, rest);
    case QidF(q) =>
      D.QidRoundTrip(q, rest);
      assert (D.EncodeQid(q) + rest)[13..] == rest;
  }

  lemma QidCanonical(b: seq<Byte>)
    requires DecodeQid(b).Some?
    ensures b == D.EncodeQid(DecodeQid(b).value.0) + DecodeQid(b).value.1
  {
    UnLERoundTrip(b[1..5]);
    UnLERoundTrip(b[5..13]);
    assert b == [b[0]] + b[1..5] + b[5..13] + b[13..];
  }

  lemma CutInThree(b: seq<Byte>, i: nat, j: nat)
    requires i <= j <= |b|
    ensures b == b[..i] + b[i..j] + b[j..]
  {}

  /** What decodes is exactly what encoding the value would have produced. */
  lemma SimpleCanonical(k: SimpleKind, b: seq<Byte>)
    requires DecodeSimple(k, b).Some?
    ensures var (f, rest) := DecodeSimple(k, b).value;
            SimpleKindOf(f) == k && LegalSimple(f) && b == EncodeSimple(f) + rest
  {
    match k
    case IntK(n) =>
      UnLERoundTrip(b[..n]);
      UnLEBound(b[..n]);
      assert b == b[..n] + b[n..];
    case StrK =>
      var n := UnLE(b[..2]);
      Widths();
      UnLEBound(b[..2]);
      UnLERoundTrip(b[..2]);
      CutInThree(b, 2, 2 + n);
    case QidK => QidCanonical(b);
  }

  // ---------------------------------------------------------------- lists of them

  function SimpleKinds(fs: seq<Simple>): seq<SimpleKind> { KindsOf(SimpleKindOf, fs) }

  predicate LegalList(fs: seq<Simple>) { forall i :: 0 <= i < |fs| ==> LegalSimple(fs[i]) }

  function EncodeList(fs: seq<Simple>): seq<Byte> { EncodeAll(EncodeSimple, fs) }

  function DecodeList(ks: seq<SimpleKind>, b: seq<Byte>): Decoded<seq<Simple>> { DecodeAll(DecodeSimple, ks, b) }

  /** Decoding fills nothing in. */
  function AsIs(f: Simple): Simple { f }

  lemma ListRoundTrip(fs: seq<Simple>, rest: seq<Byte>)
    requires LegalList(fs)
    ensures DecodeList(SimpleKinds(fs), EncodeList(fs) + rest) == Some((fs, rest))
  {
    forall f: Simple, r: seq<Byte> | LegalSimple(f)
      ensures DecodeSimple(SimpleKindOf(f), EncodeSimple(f) + r) == Some((f, r))
    {
      SimpleRoundTrip(f, r);
    }
    AllRoundTrip(SimpleKindOf, LegalSimple, EncodeSimple, AsIs, DecodeSimple, fs, rest);
    assert MapAll(AsIs, fs) == fs;
  }

  lemma ListCanonical(ks: seq<SimpleKind>, b: seq<Byte>)
    requires DecodeList(ks, b).Some?
    ensures var (fs, rest) := DecodeList(ks, b).value;
            SimpleKinds(fs) == ks && LegalList(fs) && b == EncodeList(fs) + rest
  {
    forall k: SimpleKind, c: seq<Byte> | DecodeSimple(k, c).Some?
      ensures var (f, rest) := DecodeSimple(k, c).value;
              SimpleKindOf(f) == k && LegalSimple(f) && c == EncodeSimple(f) + rest
    {
      SimpleCanonical(k, c);
    }
    AllCanonical(SimpleKindOf, LegalSimple, EncodeSimple, DecodeSimple, ks, b);
  }

  function Strings(ss: seq<seq<Byte>>): (fs: seq<Simple>)
    ensures |fs| == |ss| && forall i :: 0 <= i < |ss| ==> fs[i] == Str(ss[i])
  {
    seq(|ss|, i requires 0 <= i < |ss| => Str(ss[i]))
  }

  function QidFields(qs: seq<Qid>): (fs: seq<Simple>)
    ensures |fs| == |qs| && forall i :: 0 <= i < |qs| ==> fs[i] == QidF(qs[i])
  {
    seq(|qs|, i requires 0 <= i < |qs| => QidF(qs[i]))
  }

  function Repeat(k: SimpleKind, n: nat): (ks: seq<SimpleKind>)
    ensures |ks| == n && forall i :: 0 <= i < n ==> ks[i] == k
  {
    seq(n, _ => k)
  }

  // ---------------------------------------------------------------- the stat structure

  datatype Stat = Stat(size: U16, kind: U16, dev: U32, qid: Qid, mode: U32, atime: U32, mtime: U32, length: U64,
                       name: seq<Byte>, uid: seq<Byte>, gid: seq<Byte>, muid: seq<Byte>, extension: seq<Byte>,
                       nUid: U32, nGid: U32, nMuid: U32)

  /** EncodedSize, before its bound check: the stat without its own size prefix. */
  function StatSize(st: Stat): nat {
    39 + (2 + |st.name|) + (2 + |st.uid|) + (2 + |st.gid|) + (2 + |st.muid|) + (2 + |st.extension|) + 12
  }

  function StatFields(st: Stat): seq<Simple> {
    [Int(2, st.kind), Int(4, st.dev), QidF(st.qid), Int(4, st.mode), Int(4, st.atime), Int(4, st.mtime),
     Int(8, st.length), Str(st.name), Str(st.uid), Str(st.gid), Str(st.muid), Str(st.extension),
     Int(4, st.nUid), Int(4, st.nGid), Int(4, st.nMuid)]
  }

  function StatKinds(): seq<SimpleKind> {
    [IntK(2), IntK(4), QidK, IntK(4), IntK(4), IntK(4), IntK(8), StrK, StrK, StrK, StrK, StrK, IntK(4), IntK(4),
     IntK(4)]
  }

  /** The value of an integer field, as the narrow type it is stored in. */
  function U16Of(f: Simple): U16 { if f.Int? && f.v <= UINT16_MAX then f.v else 0 }

  function U32Of(f: Simple): U32 { if f.Int? && f.v <= UINT32_MAX then f.v else 0 }

  function U64Of(f: Simple): U64 { if f.Int? && f.v <= UINT64_MAX then f.v else 0 }

  function StrOf(f: Simple): seq<Byte> { if f.Str? then f.s else [] }

  function QidOf(f: Simple): Qid { if f.QidF? then f.q else D.Qid(0, 0, 0) }

  function StatFrom(size: U16, fs: seq<Simple>): Stat
    requires |fs| == 15
  {
    Stat(size, U16Of(fs[0]), U32Of(fs[1]), QidOf(fs[2]), U32Of(fs[3]), U32Of(fs[4]), U32Of(fs[5]), U64Of(fs[6]),
         StrOf(fs[7]), StrOf(fs[8]), StrOf(fs[9]), StrOf(fs[10]), StrOf(fs[11]), U32Of(fs[12]), U32Of(fs[13]),
         U32Of(fs[14]))
  }

  lemma StatFieldsInverse(size: U16, fs: seq<Simple>)
    requires SimpleKinds(fs) == StatKinds() && LegalList(fs)
    ensures StatFields(StatFrom(size, fs)) == fs
  {
    Widths();
    assert forall i :: 0 <= i < |fs| ==> SimpleKindOf(fs[i]) == StatKinds()[i] && LegalSimple(fs[i]);
  }

  lemma StatIsLegal(st: Stat)
    requires StatSize(st) <= UINT16_MAX
    ensures SimpleKinds(StatFields(st)) == StatKinds() && LegalList(StatFields(st))
  {
    Widths();
  }

  /** The arithmetic of EncodedSize counts the bytes that are written. */
  lemma StatSizeCountsBytes(st: Stat)
    ensures |EncodeList(StatFields(st))| == StatSize(st)
  {
    var fs := StatFields(st);
    var head, names, ids := fs[..7], fs[7..12], fs[12..];
    SizeAtCut(EncodeSimple, fs, 7);
    SizeAtCut(EncodeSimple, fs[7..], 5);
    assert fs[7..][..5] == names && fs[7..][5..] == ids;
    FixedHead(head);
    StringLengths(names);
    FixedTail(ids);
  }

  lemma Size1(f: Simple, rest: seq<Simple>)
    ensures |EncodeList([f] + rest)| == |EncodeSimple(f)| + |EncodeList(rest)|
  {
    assert ([f] + rest)[1..] == rest;
  }

  lemma FixedHead(fs: seq<Simple>)
    requires |fs| == 7 && fs[2].QidF? && fs[0].Int? && fs[0].n == 2
    requires fs[1].Int? && fs[1].n == 4 && fs[3].Int? && fs[3].n == 4 && fs[4].Int? && fs[4].n == 4
    requires fs[5].Int? && fs[5].n == 4 && fs[6].Int? && fs[6].n == 8
    ensures |EncodeList(fs)| == 39
  {
    SizeAtCut(EncodeSimple, fs, 3);
    Size1(fs[0], [fs[1], fs[2]]);
    Size1(fs[1], [fs[2]]);
    Size1(fs[2], []);
    assert fs[..3] == [fs[0]] + [fs[1], fs[2]] && [fs[1], fs[2]] == [fs[1]] + [fs[2]] && [fs[2]] == [fs[2]] + [];
    Size1(fs[3], [fs[4], fs[5], fs[6]]);
    Size1(fs[4], [fs[5], fs[6]]);
    Size1(fs[5], [fs[6]]);
    Size1(fs[6], []);
    assert fs[3..] == [fs[3]] + [fs[4], fs[5], fs[6]] && [fs[4], fs[5], fs[6]] == [fs[4]] + [fs[5], fs[6]];
    assert [fs[5], fs[6]] == [fs[5]] + [fs[6]] && [fs[6]] == [fs[6]] + [];
  }

  lemma StringLengths(fs: seq<Simple>)
    requires |fs| == 5 && forall i :: 0 <= i < 5 ==> fs[i].Str?
    ensures |EncodeList(fs)| == 10 + |fs[0].s| + |fs[1].s| + |fs[2].s| + |fs[3].s| + |fs[4].s|
  {
    Size1(fs[0], fs[1..]);
    Size1(fs[1], fs[2..]);
    Size1(fs[2], fs[3..]);
    Size1(fs[3], fs[4..]);
    Size1(fs[4], []);
    assert fs == [fs[0]] + fs[1..] && fs[1..] == [fs[1]] + fs[2..] && fs[2..] == [fs[2]] + fs[3..];
    assert fs[3..] == [fs[3]] + fs[4..] && fs[4..] == [fs[4]] + [];
  }

  lemma FixedTail(fs: seq<Simple>)
    requires |fs| == 3 && forall i :: 0 <= i < 3 ==> fs[i].Int? && fs[i].n == 4
    ensures |EncodeList(fs)| == 12
  {
    Size1(fs[0], fs[1..]);
    Size1(fs[1], fs[2..]);
    Size1(fs[2], []);
    assert fs == [fs[0]] + fs[1..] && fs[1..] == [fs[1]] + fs[2..] && fs[2..] == [fs[2]] + [];
  }
}
