/**
 The bytes of every 9P2000.u message, written down field by field as the manual pages of section 5 give them, and the
 encoders compared with that (proto/types.go, proto/messages.go, proto/p9u/messages.go).
 */
module WireFormat {
  import opened Common
  import opened Fields
  import opened Frames
  import opened ListCodec
  import opened Messages
  import opened Wire
  import D = Dirents

  function Cat(parts: seq<seq<Byte>>): seq<Byte> {
    if parts == [] then [] else parts[0] + Cat(parts[1..])
  }

  /** A string: its length in two bytes, then its bytes. */
  function String(s: Text): seq<Byte> { LE(2, |s|) + s }

  function QidBytes(q: D.Qid): seq<Byte> { [q.kind] + LE(4, q.version) + LE(8, q.path) }

  /** The stat as intro(5) and the 9P2000.u extension lay it out, without its size prefix. */
  function StatFormat(st: Stat): seq<Byte> {
    Cat([LE(2, st.kind), LE(4, st.dev), QidBytes(st.qid), LE(4, st.mode), LE(4, st.atime), LE(4, st.mtime),
         LE(8, st.length), String(st.name), String(st.uid), String(st.gid), String(st.muid), String(st.extension),
         LE(4, st.nUid), LE(4, st.nGid), LE(4, st.nMuid)])
  }

  /** A stat inside a message: both lengths, then the stat. */
  function SizedStat(st: Stat): seq<Byte> {
    LE(2, Nstat(st)) + (LE(2, StatSize(st)) + StatFormat(st))
  }

  /** The type byte of each message and the bytes of its fields, in order. */
  function Format(m: Msg): (Byte, seq<seq<Byte>>) {
    match m
    case Tversion(msize, version) => (100, [LE(4, msize), String(version)])
    case Rversion(msize, version) => (101, [LE(4, msize), String(version)])
    case Tauth(afid, uname, aname, nUname) => (102, [LE(4, afid), String(uname), String(aname), LE(4, nUname)])
    case Rauth(aqid) => (103, [QidBytes(aqid)])
    case Tattach(fid, afid, uname, aname, nUname) =>
      (104, [LE(4, fid), LE(4, afid), String(uname), String(aname), LE(4, nUname)])
    case Rattach(qid) => (105, [QidBytes(qid)])
    case Rerror(ename, errno) => (107, [String(ename), LE(4, errno)])
    case Tflush(oldTag) => (108, [LE(2, oldTag)])
    case Rflush => (109, [])
    case Twalk(fid, newFid, names) =>
      (110, [LE(4, fid), LE(4, newFid),
             LE(2, |names|) + Cat(seq(|names|, i requires 0 <= i < |names| => String(names[i])))])
    case Rwalk(qids) => (111, [LE(2, |qids|) + Cat(seq(|qids|, i requires 0 <= i < |qids| => QidBytes(qids[i])))])
    case Topen(fid, mode) => (112, [LE(4, fid), LE(1, mode)])
    case Ropen(qid, iounit) => (113, [QidBytes(qid), LE(4, iounit)])
    case Tcreate(fid, name, perm, mode, extension) =>
      (114, [LE(4, fid), String(name), LE(4, perm), LE(1, mode), String(extension)])
    case Rcreate(qid, iounit) => (115, [QidBytes(qid), LE(4, iounit)])
    case Tread(fid, offset, count) => (116, [LE(4, fid), LE(8, offset), LE(4, count)])
    case Rread(data) => (117, [LE(4, |data|) + data])
    case Twrite(fid, offset, data) => (118, [LE(4, fid), LE(8, offset), LE(4, |data|) + data])
    case Rwrite(count) => (119, [LE(4, count)])
    case Tclunk(fid) => (120, [LE(4, fid)])
    case Rclunk => (121, [])
    case Tremove(fid) => (122, [LE(4, fid)])
    case Rremove => (123, [])
    case Tstat(fid) => (124, [LE(4, fid)])
    case Rstat(stat) => (125, [SizedStat(stat)])
    case Twstat(fid, stat) => (126, [LE(4, fid), SizedStat(stat)])
    case Rwstat => (127, [])
  }

  lemma {:induction false} EncodeIsCat<T>(enc: T -> seq<Byte>, fs: seq<T>, parts: seq<seq<Byte>>)
    requires |parts| == |fs| && forall i :: 0 <= i < |fs| ==> enc(fs[i]) == parts[i]
    ensures EncodeAll(enc, fs) == Cat(parts)
    decreases |fs|
  {
    if fs != [] {
      EncodeIsCat(enc, fs[1..], parts[1..]);
    }
  }

  lemma NamesAreStrings(names: seq<Text>)
    ensures EncodeField(Names(names)) ==
            LE(2, |names|) + Cat(seq(|names|, i requires 0 <= i < |names| => String(names[i])))
  {
    EncodeIsCat(EncodeSimple, Strings(names), seq(|names|, i requires 0 <= i < |names| => String(names[i])));
  }

  lemma QidsAreBytes(qids: seq<D.Qid>)
    ensures EncodeField(Field.Qids(qids)) ==
            LE(2, |qids|) + Cat(seq(|qids|, i requires 0 <= i < |qids| => QidBytes(qids[i])))
  {
    EncodeIsCat(EncodeSimple, QidFields(qids), seq(|qids|, i requires 0 <= i < |qids| => QidBytes(qids[i])));
  }

  lemma StatIsFormat(st: Stat)
    ensures EncodeField(StatF(st)) == SizedStat(st)
  {
    var parts := [LE(2, st.kind), LE(4, st.dev), QidBytes(st.qid), LE(4, st.mode), LE(4, st.atime), LE(4, st.mtime),
                  LE(8, st.length), String(st.name), String(st.uid), String(st.gid), String(st.muid),
                  String(st.extension), LE(4, st.nUid), LE(4, st.nGid), LE(4, st.nMuid)];
    EncodeIsCat(EncodeSimple, StatFields(st), parts);
  }

  lemma TypeIsFormat(m: Msg)
    ensures TypeOf(m) == Format(m).0 && |FieldsOf(m)| == |Format(m).1|
  {}

  lemma ListsAreFormat(m: Msg)
    requires m.Twalk? || m.Rwalk? || m.Rstat? || m.Twstat?
    ensures |FieldsOf(m)| == |Format(m).1|
    ensures forall i :: 0 <= i < |FieldsOf(m)| ==> EncodeField(FieldsOf(m)[i]) == Format(m).1[i]
  {
    match m
    case Twalk(_, _, names) => NamesAreStrings(names);
    case Rwalk(qids) => QidsAreBytes(qids);
    case Rstat(stat) => StatIsFormat(stat);
    case Twstat(_, stat) => StatIsFormat(stat);
  }

  lemma FieldsAreFormat(m: Msg)
    ensures |FieldsOf(m)| == |Format(m).1|
    ensures forall i :: 0 <= i < |FieldsOf(m)| ==> EncodeField(FieldsOf(m)[i]) == Format(m).1[i]
  {
    if m.Twalk? || m.Rwalk? || m.Rstat? || m.Twstat? {
      ListsAreFormat(m);
    }
  }

  /** The body of every message is the bytes of its fields in the order of the protocol. */
  lemma BodyIsFormat(m: Msg)
    ensures TypeOf(m) == Format(m).0 && Body(m) == Cat(Format(m).1)
  {
    TypeIsFormat(m);
    FieldsAreFormat(m);
    EncodeIsCat(EncodeField, FieldsOf(m), Format(m).1);
  }

  /** A frame is its own length in four bytes, its type, its tag, and then the body. */
  lemma FrameIsFormat(f: Frame)
    requires CanEncode(f.msg)
    ensures var b := EncodeFrame(f);
            && |b| >= HEADER_SIZE && UnLE(b[..4]) == |b| && UnLE(b[4..5]) == Format(f.msg).0
            && UnLE(b[5..7]) == f.tag && b[7..] == Cat(Format(f.msg).1)
  {
    BodyIsFormat(f.msg);
    FrameFits(f.msg);
    var b, body := EncodeFrame(f), Body(f.msg);
    assert |b| == HEADER_SIZE + |body|;
    assert b[..4] == LE(4, |b|) && b[4..5] == LE(1, TypeOf(f.msg)) && b[5..7] == LE(2, f.tag) && b[7..] == body;
    Widths();
    LERoundTrip(4, |b|);
    LERoundTrip(1, TypeOf(f.msg));
    LERoundTrip(2, f.tag);
  }

  /** An Rreaddir entry: qid, the offset of the next one, the type, and the name. */
  lemma DirentIsFormat(d: D.Dirent)
    ensures D.EncodeDirent(d) == Cat([QidBytes(d.qid), LE(8, d.offset), [d.kind], String(d.name)])
  {
    assert Cat([String(d.name)]) == String(d.name);
    assert Cat([[d.kind], String(d.name)]) == [d.kind] + String(d.name);
    assert Cat([LE(8, d.offset), [d.kind], String(d.name)]) == LE(8, d.offset) + ([d.kind] + String(d.name));
  }

  /** The lengths the fields of a message have to fit. */
  predicate WithinLimits(m: Msg) {
    match m
    case Tversion(_, version) => |version| <= 0xFFFF
    case Rversion(_, version) => |version| <= 0xFFFF
    case Tauth(_, uname, aname, _) => |uname| <= 0xFFFF && |aname| <= 0xFFFF
    case Tattach(_, _, uname, aname, _) => |uname| <= 0xFFFF && |aname| <= 0xFFFF
    case Rerror(ename, _) => |ename| <= 0xFFFF
    case Twalk(_, _, names) => |names| <= 16 && forall i :: 0 <= i < |names| ==> |names[i]| <= 0xFFFF
    case Rwalk(qids) => |qids| <= 16
    case Tcreate(_, name, _, _, extension) => |name| <= 0xFFFF && |extension| <= 0xFFFF
    case Rread(data) => |data| <= 0x100_0000
    case Twrite(_, _, data) => |data| <= 0x100_0000
    case Rstat(stat) => |StatFormat(stat)| <= 0xFFFF
    case Twstat(_, stat) => |StatFormat(stat)| <= 0xFFFF
    case _ => true
  }

  lemma StatFormatSize(st: Stat)
    ensures |StatFormat(st)| == StatSize(st)
  {
    StatIsFormat(st);
    StatBytesSize(st);
  }

  lemma PlainIsEncodable(m: Msg, i: nat)
    requires i < |FieldsOf(m)| && FieldsOf(m)[i].Plain? && FieldsOf(m)[i].p.Int?
    ensures Encodable(FieldsOf(m)[i])
  {
    Widths();
  }

  /** The encoder refuses a message exactly when one of its fields is too long. */
  lemma EncodesIffWithinLimits(m: Msg)
    ensures CanEncode(m) <==> WithinLimits(m)
  {
    forall i | 0 <= i < |FieldsOf(m)| && FieldsOf(m)[i].Plain? && FieldsOf(m)[i].p.Int?
      ensures Encodable(FieldsOf(m)[i])
    {
      PlainIsEncodable(m, i);
    }
    if m.Rstat? || m.Twstat? {
      StatFormatSize(m.stat);
    }
    if CanEncode(m) {
      LimitsAreNeeded(m);
    }
    if WithinLimits(m) {
      LimitsSuffice(m);
    }
  }

  lemma LimitsAreNeeded(m: Msg)
    requires CanEncode(m) && (m.Rstat? || m.Twstat? ==> |StatFormat(m.stat)| == StatSize(m.stat))
    ensures WithinLimits(m)
  {
    var fs := FieldsOf(m);
    assert |fs| > 0 ==> Encodable(fs[0]);
    assert |fs| > 1 ==> Encodable(fs[1]);
    assert |fs| > 2 ==> Encodable(fs[2]);
    assert |fs| > 3 ==> Encodable(fs[3]);
    assert |fs| > 4 ==> Encodable(fs[4]);
  }

  lemma LimitsSuffice(m: Msg)
    requires WithinLimits(m) && (m.Rstat? || m.Twstat? ==> |StatFormat(m.stat)| == StatSize(m.stat))
    requires forall i :: 0 <= i < |FieldsOf(m)| && FieldsOf(m)[i].Plain? && FieldsOf(m)[i].p.Int? ==>
               Encodable(FieldsOf(m)[i])
    ensures CanEncode(m)
  {}
}
