/** The 9P2000.u messages as lists of fields (proto/messages.go, proto/p9u/messages.go, proto/p9u/codec.go). */
module Messages {
  import opened Common
  import opened Fields
  import opened ListCodec
  import opened Wire
  import D = Dirents

  // ---------------------------------------------------------------- compound fields

  datatype Kind = PlainK(k: SimpleKind) | NamesK | QidsK | DataK | StatK

  datatype Field =
    | Plain(p: Simple)
    | Names(ss: seq<seq<Byte>>)   // count[2] then strings
    | Qids(qs: seq<Qid>)          // count[2] then QIDs
    | Data(b: seq<Byte>)          // count[4] then bytes
    | StatF(st: Stat)             // nstat[2] then size[2] and the stat

  function KindOf(f: Field): Kind {
    match f
    case Plain(p) => PlainK(SimpleKindOf(p))
    case Names(_) => NamesK
    case Qids(_) => QidsK
    case Data(_) => DataK
    case StatF(_) => StatK
  }

  /** The encoder takes the field. */
  predicate Encodable(f: Field) {
    match f
    case Plain(p) => LegalSimple(p)
    case Names(ss) => |ss| <= MAX_WALK_ELEMENTS && forall i :: 0 <= i < |ss| ==> |ss[i]| <= UINT16_MAX
    case Qids(qs) => |qs| <= MAX_WALK_ELEMENTS
    case Data(b) => |b| <= MAX_DATA_SIZE
    case StatF(st) => StatSize(st) <= UINT16_MAX
  }

  /** The nstat prefix, which counts the stat's size prefix too, does not wrap. */
  predicate Unwrapped(f: Field) { f.StatF? ==> StatSize(f.st) <= UINT16_MAX - 2 }

  /** What comes back from the wire: the encoder ignores a stat's own size field and the decoder sets it. */
  predicate Legal(f: Field) { Encodable(f) && Unwrapped(f) }

  /** The stat's size field is what decoding sets it to. */
  predicate Sized(f: Field) { f.StatF? ==> f.st.size == StatSize(f.st) }

  function FillStat(st: Stat): Stat { if StatSize(st) <= UINT16_MAX then st.(size := StatSize(st)) else st }

  /** The field with its stat's size filled in. */
  function Fill(f: Field): Field { if f.StatF? then StatF(FillStat(f.st)) else f }

  function EncodeField(f: Field): seq<Byte> {
    match f
    case Plain(p) => EncodeSimple(p)
    case Names(ss) => LE(2, |ss|) + EncodeList(Strings(ss))
    case Qids(qs) => LE(2, |qs|) + EncodeList(QidFields(qs))
    case Data(b) => LE(4, |b|) + b
    case StatF(st) => LE(2, Nstat(st)) + StatBytes(st)
  }

  /** The 16-bit sum of the stat's size and its size prefix. */
  function Nstat(st: Stat): (n: nat)
    ensures StatSize(st) <= UINT16_MAX - 2 ==> n == StatSize(st) + 2
    ensures UINT16_MAX - 2 < StatSize(st) <= UINT16_MAX ==> n == StatSize(st) - (UINT16_MAX - 1)
  {
    (2 + StatSize(st)) % 0x1_0000
  }

  function StatBytes(st: Stat): seq<Byte> { LE(2, StatSize(st)) + EncodeList(StatFields(st)) }

  /** A counted list of at most 16 elements. */
  function DecodeCounted(k: SimpleKind, b: seq<Byte>): Decoded<seq<Simple>> {
    match DecodeInt(2, b)
    case None => None
    case Some((n, rest)) => if n > MAX_WALK_ELEMENTS then None else DecodeList(Repeat(k, n), rest)
  }

  function DecodeData(b: seq<Byte>): Decoded<seq<Byte>> {
    match DecodeInt(4, b)
    case None => None
    case Some((n, rest)) => if n > MAX_DATA_SIZE || n > |rest| then None else Some((rest[..n], rest[n..]))
  }

  /** The stat within the bytes a limited reader lets through: both limits must be used up exactly. */
  function DecodeStatIn(window: seq<Byte>): Option<Stat> {
    match DecodeInt(2, window)
    case None => None
    case Some((size, body)) =>
      if size != |body| || size > UINT16_MAX then None
      else
        match DecodeList(StatKinds(), body)
        case None => None
        case Some((fs, rest)) => if rest == [] && |fs| == 15 then Some(StatFrom(size, fs)) else None
  }

  function DecodeStat(b: seq<Byte>): Decoded<Stat> {
    match DecodeInt(2, b)
    case None => None
    case Some((nstat, rest)) =>
      if nstat > |rest| then None
      else
        match DecodeStatIn(rest[..nstat])
        case None => None
        case Some(st) => Some((st, rest[nstat..]))
  }

  function DecodeField(k: Kind, b: seq<Byte>): Decoded<Field> {
    match k
    case PlainK(s) => (match DecodeSimple(s, b) case None => None case Some((p, rest)) => Some((Plain(p), rest)))
    case NamesK =>
      (match DecodeCounted(StrK, b)
       case None => None
       case Some((fs, rest)) => Some((Names(UnStr(fs)), rest)))
    case QidsK =>
      (match DecodeCounted(QidK, b)
       case None => None
       case Some((fs, rest)) => Some((Qids(UnQid(fs)), rest)))
    case DataK => (match DecodeData(b) case None => None case Some((d, rest)) => Some((Data(d), rest)))
    case StatK => (match DecodeStat(b) case None => None case Some((st, rest)) => Some((StatF(st), rest)))
  }

  function UnStr(fs: seq<Simple>): seq<seq<Byte>> { seq(|fs|, i requires 0 <= i < |fs| => StrOf(fs[i])) }

  function UnQid(fs: seq<Simple>): seq<Qid> { seq(|fs|, i requires 0 <= i < |fs| => QidOf(fs[i])) }

  // ---------------------------------------------------------------- fields round trip

  lemma IntThen(n: nat, v: nat, d: seq<Byte>, rest: seq<Byte>)
    requires v < Pow256(n)
    ensures DecodeInt(n, LE(n, v) + d + rest) == Some((v, d + rest))
  {
    IntRoundTrip(n, v, d + rest);
    Assoc(LE(n, v), d, rest);
  }

  lemma CountedRoundTrip(k: SimpleKind, fs: seq<Simple>, rest: seq<Byte>)
    requires |fs| <= MAX_WALK_ELEMENTS && LegalList(fs) && SimpleKinds(fs) == Repeat(k, |fs|)
    ensures DecodeCounted(k, LE(2, |fs|) + EncodeList(fs) + rest) == Some((fs, rest))
  {
    Fits2(|fs|);
    IntThen(2, |fs|, EncodeList(fs), rest);
    ListRoundTrip(fs, rest);
  }

  lemma NamesRoundTrip(ss: seq<seq<Byte>>, rest: seq<Byte>)
    requires Legal(Names(ss))
    ensures DecodeField(NamesK, EncodeField(Names(ss)) + rest) == Some((Names(ss), rest))
  {
    assert SimpleKinds(Strings(ss)) == Repeat(StrK, |ss|);
    CountedRoundTrip(StrK, Strings(ss), rest);
    assert UnStr(Strings(ss)) == ss;
  }

  lemma QidsRoundTrip(qs: seq<Qid>, rest: seq<Byte>)
    requires Legal(Qids(qs))
    ensures DecodeField(QidsK, EncodeField(Qids(qs)) + rest) == Some((Qids(qs), rest))
  {
    assert SimpleKinds(QidFields(qs)) == Repeat(QidK, |qs|);
    CountedRoundTrip(QidK, QidFields(qs), rest);
    assert UnQid(QidFields(qs)) == qs;
  }

  lemma DataAfter(x: seq<Byte>, d: seq<Byte>, rest: seq<Byte>)
    requires |d| <= MAX_DATA_SIZE && DecodeInt(4, x) == Some((|d|, d + rest))
    ensures DecodeData(x) == Some((d, rest))
  {
    assert (d + rest)[..|d|] == d && (d + rest)[|d|..] == rest;
  }

  lemma DataRoundTrip(d: seq<Byte>, rest: seq<Byte>)
    requires |d| <= MAX_DATA_SIZE
    ensures DecodeData(LE(4, |d|) + d + rest) == Some((d, rest))
  {
    Fits4(|d|);
    IntThen(4, |d|, d, rest);
    DataAfter(LE(4, |d|) + d + rest, d, rest);
  }

  lemma StatInRoundTrip(st: Stat)
    requires StatSize(st) <= UINT16_MAX
    ensures DecodeStatIn(StatBytes(st)) == Some(FillStat(st))
  {
    var body := EncodeList(StatFields(st));
    Fits2(StatSize(st));
    IntRoundTrip(2, StatSize(st), body);
    StatIsLegal(st);
    StatSizeCountsBytes(st);
    ListRoundTrip(StatFields(st), []);
    assert body + [] == body;
  }

  lemma StatAfter(x: seq<Byte>, window: seq<Byte>, st: Stat, rest: seq<Byte>)
    requires DecodeInt(2, x) == Some((|window|, window + rest)) && DecodeStatIn(window) == Some(st)
    ensures DecodeStat(x) == Some((st, rest))
  {
    assert (window + rest)[..|window|] == window && (window + rest)[|window|..] == rest;
  }

  lemma WindowRoundTrip(window: seq<Byte>, st: Stat, rest: seq<Byte>)
    requires |window| <= UINT16_MAX && DecodeStatIn(window) == Some(st)
    ensures DecodeStat(LE(2, |window|) + window + rest) == Some((st, rest))
  {
    Fits2(|window|);
    IntThen(2, |window|, window, rest);
    StatAfter(LE(2, |window|) + window + rest, window, st, rest);
  }

  lemma StatBytesSize(st: Stat)
    ensures |StatBytes(st)| == 2 + StatSize(st)
  {
    StatSizeCountsBytes(st);
  }

  lemma EncodedStat(st: Stat)
    requires Legal(StatF(st))
    ensures |StatBytes(st)| <= UINT16_MAX
    ensures EncodeField(StatF(st)) == LE(2, |StatBytes(st)|) + StatBytes(st)
  {
    StatBytesSize(st);
    assert Nstat(st) == |StatBytes(st)|;
  }

  lemma StatFieldFrom(x: seq<Byte>, st: Stat, rest: seq<Byte>)
    requires DecodeStat(x) == Some((st, rest))
    ensures DecodeField(StatK, x) == Some((StatF(st), rest))
  {}

  lemma StatWindow(window: seq<Byte>, x: seq<Byte>, st: Stat, rest: seq<Byte>)
    requires |window| <= UINT16_MAX && DecodeStatIn(window) == Some(st)
    requires x == LE(2, |window|) + window
    ensures DecodeField(StatK, x + rest) == Some((StatF(st), rest))
  {
    WindowRoundTrip(window, st, rest);
    StatFieldFrom(x + rest, st, rest);
  }

  lemma DataFieldRoundTrip(d: seq<Byte>, rest: seq<Byte>)
    requires Legal(Data(d))
    ensures DecodeField(DataK, EncodeField(Data(d)) + rest) == Some((Data(d), rest))
  {
    DataRoundTrip(d, rest);
  }

  lemma StatFieldRoundTrip(st: Stat, rest: seq<Byte>)
    requires Legal(StatF(st))
    ensures DecodeField(StatK, EncodeField(StatF(st)) + rest) == Some((StatF(FillStat(st)), rest))
  {
    EncodedStat(st);
    StatInRoundTrip(st);
    StatWindow(StatBytes(st), EncodeField(StatF(st)), FillStat(st), rest);
  }

  /** A field comes back, its stat's size filled in, with the rest untouched. */
  lemma FieldRoundTrip(f: Field, rest: seq<Byte>)
    requires Legal(f)
    ensures DecodeField(KindOf(f), EncodeField(f) + rest) == Some((Fill(f), rest))
  {
    match f
    case Plain(p) => SimpleRoundTrip(p, rest);
    case Names(ss) => NamesRoundTrip(ss, rest);
    case Qids(qs) => QidsRoundTrip(qs, rest);
    case Data(d) => DataFieldRoundTrip(d, rest);
    case StatF(st) => StatFieldRoundTrip(st, rest);
  }

  lemma TooSmallForStat(x: seq<Byte>, nstat: nat, rest: seq<Byte>)
    requires DecodeInt(2, x) == Some((nstat, rest)) && nstat <= 1
    ensures DecodeField(StatK, x) == None
  {}

  /** A stat of 65534 or 65535 bytes is encoded with a wrapped nstat, and no decoder accepts it. */
  lemma WrappedStatIsRejected(st: Stat, rest: seq<Byte>)
    requires UINT16_MAX - 2 < StatSize(st) <= UINT16_MAX
    ensures DecodeField(StatK, EncodeField(StatF(st)) + rest) == None
  {
    Fits2(Nstat(st));
    IntThen(2, Nstat(st), StatBytes(st), rest);
    TooSmallForStat(EncodeField(StatF(st)) + rest, Nstat(st), StatBytes(st) + rest);
  }

  // ---------------------------------------------------------------- what decodes is canonical

  lemma IntCanonical(n: nat, b: seq<Byte>)
    requires DecodeInt(n, b).Some?
    ensures b == LE(n, DecodeInt(n, b).value.0) + DecodeInt(n, b).value.1
  {
    SimpleCanonical(IntK(n), b);
  }

  lemma CountedCanonical(k: SimpleKind, b: seq<Byte>)
    requires DecodeCounted(k, b).Some?
    ensures var (fs, rest) := DecodeCounted(k, b).value;
            && |fs| <= MAX_WALK_ELEMENTS && LegalList(fs) && SimpleKinds(fs) == Repeat(k, |fs|)
            && b == LE(2, |fs|) + EncodeList(fs) + rest
  {
    IntCanonical(2, b);
    var (n, tail) := DecodeInt(2, b).value;
    ListCanonical(Repeat(k, n), tail);
    var (fs, rest) := DecodeCounted(k, b).value;
    Assoc(LE(2, n), EncodeList(fs), rest);
  }

  lemma StatInCanonical(window: seq<Byte>)
    requires DecodeStatIn(window).Some?
    ensures var st := DecodeStatIn(window).value;
            && st.size == StatSize(st) && |window| == 2 + StatSize(st) && window == StatBytes(st)
  {
    IntCanonical(2, window);
    var (size, body) := DecodeInt(2, window).value;
    ListCanonical(StatKinds(), body);
    var fs := DecodeList(StatKinds(), body).value.0;
    StatFieldsInverse(size, fs);
    assert body == EncodeList(fs);
    StatSizeCountsBytes(StatFrom(size, fs));
  }

  lemma TwoBytes(b: seq<Byte>)
    requires DecodeInt(2, b).Some?
    ensures DecodeInt(2, b).value.0 <= UINT16_MAX
  {
    Widths();
    UnLEBound(b[..2]);
  }

  lemma StatCut(b: seq<Byte>) returns (nstat: nat, window: seq<Byte>)
    requires DecodeStat(b).Some?
    ensures nstat <= UINT16_MAX && |window| == nstat && DecodeStatIn(window) == Some(DecodeStat(b).value.0)
    ensures b == LE(2, nstat) + window + DecodeStat(b).value.1
  {
    IntCanonical(2, b);
    TwoBytes(b);
    var tail := DecodeInt(2, b).value.1;
    nstat := DecodeInt(2, b).value.0;
    window := tail[..nstat];
    assert tail == window + tail[nstat..];
    Assoc(LE(2, nstat), window, tail[nstat..]);
  }

  lemma StatFromWindow(st: Stat, nstat: nat, window: seq<Byte>)
    requires window == StatBytes(st) && nstat == |window| == 2 + StatSize(st) <= UINT16_MAX && st.size == StatSize(st)
    ensures Legal(StatF(st)) && Sized(StatF(st)) && EncodeField(StatF(st)) == LE(2, nstat) + window
  {
    assert Nstat(st) == nstat;
  }

  lemma StatCanonical(b: seq<Byte>)
    requires DecodeStat(b).Some?
    ensures var (st, rest) := DecodeStat(b).value;
            Legal(StatF(st)) && Sized(StatF(st)) && b == EncodeField(StatF(st)) + rest
  {
    var nstat, window := StatCut(b);
    StatInCanonical(window);
    StatFromWindow(DecodeStat(b).value.0, nstat, window);
  }

  lemma DataCanonical(b: seq<Byte>)
    requires DecodeData(b).Some?
    ensures var (d, rest) := DecodeData(b).value; |d| <= MAX_DATA_SIZE && b == LE(4, |d|) + d + rest
  {
    IntCanonical(4, b);
    var (n, tail) := DecodeInt(4, b).value;
    assert tail == tail[..n] + tail[n..];
    Assoc(LE(4, n), tail[..n], tail[n..]);
  }

  lemma NamesCanonical(fs: seq<Simple>)
    requires |fs| <= MAX_WALK_ELEMENTS && LegalList(fs) && SimpleKinds(fs) == Repeat(StrK, |fs|)
    ensures Strings(UnStr(fs)) == fs && Legal(Names(UnStr(fs)))
  {
    assert forall i :: 0 <= i < |fs| ==> SimpleKindOf(fs[i]) == Repeat(StrK, |fs|)[i];
  }

  lemma QidsCanonical(fs: seq<Simple>)
    requires |fs| <= MAX_WALK_ELEMENTS && SimpleKinds(fs) == Repeat(QidK, |fs|)
    ensures QidFields(UnQid(fs)) == fs && Legal(Qids(UnQid(fs)))
  {
    assert forall i :: 0 <= i < |fs| ==> SimpleKindOf(fs[i]) == Repeat(QidK, |fs|)[i];
  }

  /** What decoding yields: a legal field with nothing left to fill in. */
  predicate Filled(f: Field) { Legal(f) && Sized(f) }

  lemma FieldCanonical(k: Kind, b: seq<Byte>)
    requires DecodeField(k, b).Some?
    ensures var (f, rest) := DecodeField(k, b).value; KindOf(f) == k && Filled(f) && b == EncodeField(f) + rest
  {
    match k
    case PlainK(s) => SimpleCanonical(s, b);
    case NamesK =>
      CountedCanonical(StrK, b);
      NamesCanonical(DecodeCounted(StrK, b).value.0);
    case QidsK =>
      CountedCanonical(QidK, b);
      QidsCanonical(DecodeCounted(QidK, b).value.0);
    case DataK => DataCanonical(b);
    case StatK => StatCanonical(b);
  }

  // ---------------------------------------------------------------- message bodies

  function Kinds(fs: seq<Field>): seq<Kind> { KindsOf(KindOf, fs) }

  predicate AllLegal(fs: seq<Field>) { forall i :: 0 <= i < |fs| ==> Legal(fs[i]) }

  predicate AllFilled(fs: seq<Field>) { forall i :: 0 <= i < |fs| ==> Filled(fs[i]) }

  predicate AllEncodable(fs: seq<Field>) { forall i :: 0 <= i < |fs| ==> Encodable(fs[i]) }

  function EncodeFields(fs: seq<Field>): seq<Byte> { EncodeAll(EncodeField, fs) }

  function DecodeFields(ks: seq<Kind>, b: seq<Byte>): Decoded<seq<Field>> { DecodeAll(DecodeField, ks, b) }

  lemma FieldsRoundTrip(fs: seq<Field>, rest: seq<Byte>)
    requires AllLegal(fs)
    ensures DecodeFields(Kinds(fs), EncodeFields(fs) + rest) == Some((MapAll(Fill, fs), rest))
  {
    forall f: Field, r: seq<Byte> | Legal(f) ensures DecodeField(KindOf(f), EncodeField(f) + r) == Some((Fill(f), r)) {
      FieldRoundTrip(f, r);
    }
    AllRoundTrip(KindOf, Legal, EncodeField, Fill, DecodeField, fs, rest);
  }

  lemma FieldsCanonical(ks: seq<Kind>, b: seq<Byte>)
    requires DecodeFields(ks, b).Some?
    ensures var (fs, rest) := DecodeFields(ks, b).value;
            Kinds(fs) == ks && AllFilled(fs) && b == EncodeFields(fs) + rest
  {
    forall k: Kind, c: seq<Byte> | DecodeField(k, c).Some?
      ensures var (f, rest) := DecodeField(k, c).value; KindOf(f) == k && Filled(f) && c == EncodeField(f) + rest
    {
      FieldCanonical(k, c);
    }
    AllCanonical(KindOf, Filled, EncodeField, DecodeField, ks, b);
  }

  // ---------------------------------------------------------------- messages

  type Text = seq<Byte>

  datatype Msg =
    | Tversion(msize: U32, version: Text)
    | Rversion(msize: U32, version: Text)
    | Tauth(afid: U32, uname: Text, aname: Text, nUname: U32)
    | Rauth(aqid: Qid)
    | Tattach(fid: U32, afid: U32, uname: Text, aname: Text, nUname: U32)
    | Rattach(qid: Qid)
    | Rerror(ename: Text, errno: U32)
    | Tflush(oldTag: U16)
    | Rflush
    | Twalk(fid: U32, newFid: U32, names: seq<Text>)
    | Rwalk(qids: seq<Qid>)
    | Topen(fid: U32, mode: Byte)
    | Ropen(qid: Qid, iounit: U32)
    | Tcreate(fid: U32, name: Text, perm: U32, mode: Byte, extension: Text)
    | Rcreate(qid: Qid, iounit: U32)
    | Tread(fid: U32, offset: U64, count: U32)
    | Rread(data: seq<Byte>)
    | Twrite(fid: U32, offset: U64, data: seq<Byte>)
    | Rwrite(count: U32)
    | Tclunk(fid: U32)
    | Rclunk
    | Tremove(fid: U32)
    | Rremove
    | Tstat(fid: U32)
    | Rstat(stat: Stat)
    | Twstat(fid: U32, stat: Stat)
    | Rwstat

  function TypeOf(m: Msg): Byte {
    match m
    case Tversion(_, _) => 100
    case Rversion(_, _) => 101
    case Tauth(_, _, _, _) => 102
    case Rauth(_) => 103
    case Tattach(_, _, _, _, _) => 104
    case Rattach(_) => 105
    case Rerror(_, _) => 107
    case Tflush(_) => 108
    case Rflush => 109
    case Twalk(_, _, _) => 110
    case Rwalk(_) => 111
    case Topen(_, _) => 112
    case Ropen(_, _) => 113
    case Tcreate(_, _, _, _, _) => 114
    case Rcreate(_, _) => 115
    case Tread(_, _, _) => 116
    case Rread(_) => 117
    case Twrite(_, _, _) => 118
    case Rwrite(_) => 119
    case Tclunk(_) => 120
    case Rclunk => 121
    case Tremove(_) => 122
    case Rremove => 123
    case Tstat(_) => 124
    case Rstat(_) => 125
    case Twstat(_, _) => 126
    case Rwstat => 127
  }

  function I(n: nat, v: nat): Field { Plain(Int(n, v)) }

  function S(s: Text): Field { Plain(Str(s)) }

  function Q(q: Qid): Field { Plain(QidF(q)) }

  function FieldsOf(m: Msg): seq<Field> {
    match m
    case Tversion(msize, version) => [I(4, msize), S(version)]
    case Rversion(msize, version) => [I(4, msize), S(version)]
    case Tauth(afid, uname, aname, nUname) => [I(4, afid), S(uname), S(aname), I(4, nUname)]
    case Rauth(aqid) => [Q(aqid)]
    case Tattach(fid, afid, uname, aname, nUname) => [I(4, fid), I(4, afid), S(uname), S(aname), I(4, nUname)]
    case Rattach(qid) => [Q(qid)]
    case Rerror(ename, errno) => [S(ename), I(4, errno)]
    case Tflush(oldTag) => [I(2, oldTag)]
    case Rflush => []
    case Twalk(fid, newFid, names) => [I(4, fid), I(4, newFid), Names(names)]
    case Rwalk(qids) => [Qids(qids)]
    case Topen(fid, mode) => [I(4, fid), I(1, mode)]
    case Ropen(qid, iounit) => [Q(qid), I(4, iounit)]
    case Tcreate(fid, name, perm, mode, extension) => [I(4, fid), S(name), I(4, perm), I(1, mode), S(extension)]
    case Rcreate(qid, iounit) => [Q(qid), I(4, iounit)]
    case Tread(fid, offset, count) => [I(4, fid), I(8, offset), I(4, count)]
    case Rread(data) => [Data(data)]
    case Twrite(fid, offset, data) => [I(4, fid), I(8, offset), Data(data)]
    case Rwrite(count) => [I(4, count)]
    case Tclunk(fid) => [I(4, fid)]
    case Rclunk => []
    case Tremove(fid) => [I(4, fid)]
    case Rremove => []
    case Tstat(fid) => [I(4, fid)]
    case Rstat(stat) => [StatF(stat)]
    case Twstat(fid, stat) => [I(4, fid), StatF(stat)]
    case Rwstat => []
  }

  function IK(n: nat): Kind { PlainK(IntK(n)) }

  function SK(): Kind { PlainK(StrK) }

  function QK(): Kind { PlainK(QidK) }

  /** newMessage: the layout for a type byte, if there is such a message. */
  function Layout(t: Byte): Option<seq<Kind>> {
    if t == 100 || t == 101 then Some([IK(4), SK()])
    else if t == 102 then Some([IK(4), SK(), SK(), IK(4)])
    else if t == 103 || t == 105 then Some([QK()])
    else if t == 104 then Some([IK(4), IK(4), SK(), SK(), IK(4)])
    else if t == 107 then Some([SK(), IK(4)])
    else if t == 108 then Some([IK(2)])
    else if t == 110 then Some([IK(4), IK(4), NamesK])
    else if t == 111 then Some([QidsK])
    else if t == 112 then Some([IK(4), IK(1)])
    else if t == 113 || t == 115 then Some([QK(), IK(4)])
    else if t == 114 then Some([IK(4), SK(), IK(4), IK(1), SK()])
    else if t == 116 then Some([IK(4), IK(8), IK(4)])
    else if t == 117 then Some([DataK])
    else if t == 118 then Some([IK(4), IK(8), DataK])
    else if t == 119 || t == 120 || t == 122 || t == 124 then Some([IK(4)])
    else if t == 109 || t == 121 || t == 123 || t == 127 then Some([])
    else if t == 125 then Some([StatK])
    else if t == 126 then Some([IK(4), StatK])
    else None
  }

  function U8(f: Field): Byte { if f.Plain? && f.p.Int? && f.p.v <= 255 then f.p.v else 0 }

  function U16F(f: Field): U16 { if f.Plain? then U16Of(f.p) else 0 }

  function U32F(f: Field): U32 { if f.Plain? then U32Of(f.p) else 0 }

  function U64F(f: Field): U64 { if f.Plain? then U64Of(f.p) else 0 }

  function TextF(f: Field): Text { if f.Plain? then StrOf(f.p) else [] }

  function QidV(f: Field): Qid { if f.Plain? then QidOf(f.p) else D.Qid(0, 0, 0) }

  function StatV(f: Field): Stat {
    if f.StatF? then f.st else Stat(0, 0, 0, D.Qid(0, 0, 0), 0, 0, 0, 0, [], [], [], [], [], 0, 0, 0)
  }

  /** DecodeFrom: assigns the fields read to the message of the type. */
  function Build(t: Byte, fs: seq<Field>): Msg
    requires Layout(t) == Some(Kinds(fs))
  {
    assert |fs| == |Layout(t).value|;
    if t == 100 then Tversion(U32F(fs[0]), TextF(fs[1]))
    else if t == 101 then Rversion(U32F(fs[0]), TextF(fs[1]))
    else if t == 102 then Tauth(U32F(fs[0]), TextF(fs[1]), TextF(fs[2]), U32F(fs[3]))
    else if t == 103 then Rauth(QidV(fs[0]))
    else if t == 104 then Tattach(U32F(fs[0]), U32F(fs[1]), TextF(fs[2]), TextF(fs[3]), U32F(fs[4]))
    else if t == 105 then Rattach(QidV(fs[0]))
    else if t == 107 then Rerror(TextF(fs[0]), U32F(fs[1]))
    else if t == 108 then Tflush(U16F(fs[0]))
    else if t == 109 then Rflush
    else if t == 110 then Twalk(U32F(fs[0]), U32F(fs[1]), assert KindOf(fs[2]) == Kinds(fs)[2]; fs[2].ss)
    else if t == 111 then Rwalk(assert KindOf(fs[0]) == Kinds(fs)[0]; fs[0].qs)
    else if t == 112 then Topen(U32F(fs[0]), U8(fs[1]))
    else if t == 113 then Ropen(QidV(fs[0]), U32F(fs[1]))
    else if t == 114 then Tcreate(U32F(fs[0]), TextF(fs[1]), U32F(fs[2]), U8(fs[3]), TextF(fs[4]))
    else if t == 115 then Rcreate(QidV(fs[0]), U32F(fs[1]))
    else if t == 116 then Tread(U32F(fs[0]), U64F(fs[1]), U32F(fs[2]))
    else if t == 117 then Rread(assert KindOf(fs[0]) == Kinds(fs)[0]; fs[0].b)
    else if t == 118 then Twrite(U32F(fs[0]), U64F(fs[1]), assert KindOf(fs[2]) == Kinds(fs)[2]; fs[2].b)
    else if t == 119 then Rwrite(U32F(fs[0]))
    else if t == 120 then Tclunk(U32F(fs[0]))
    else if t == 121 then Rclunk
    else if t == 122 then Tremove(U32F(fs[0]))
    else if t == 123 then Rremove
    else if t == 124 then Tstat(U32F(fs[0]))
    else if t == 125 then Rstat(StatV(fs[0]))
    else if t == 126 then Twstat(U32F(fs[0]), StatV(fs[1]))
    else Rwstat
  }

  lemma LayoutMatches(m: Msg)
    ensures Layout(TypeOf(m)) == Some(Kinds(FieldsOf(m)))
  {
    assert Kinds(FieldsOf(m)) == Layout(TypeOf(m)).value;
  }

  /** Taking a message apart and putting it together again gives the message. */
  lemma BuildFields(m: Msg)
    ensures Layout(TypeOf(m)) == Some(Kinds(FieldsOf(m)))
    ensures Build(TypeOf(m), FieldsOf(m)) == m
  {
    LayoutMatches(m);
    if TypeOf(m) < 114 {
      BuildEarly(m);
    } else {
      BuildLate(m);
    }
  }

  lemma BuildEarly(m: Msg)
    requires TypeOf(m) < 114 && Layout(TypeOf(m)) == Some(Kinds(FieldsOf(m)))
    ensures Build(TypeOf(m), FieldsOf(m)) == m
  {}

  lemma BuildLate(m: Msg)
    requires TypeOf(m) >= 114 && Layout(TypeOf(m)) == Some(Kinds(FieldsOf(m)))
    ensures Build(TypeOf(m), FieldsOf(m)) == m
  {}

  /** An integer field's value fits the type it is assigned to. */
  predicate InWidth(f: Field) {
    f.Plain? && f.p.Int? ==>
      && (f.p.n == 1 ==> f.p.v <= 255) && (f.p.n == 2 ==> f.p.v <= UINT16_MAX)
      && (f.p.n == 4 ==> f.p.v <= UINT32_MAX) && (f.p.n == 8 ==> f.p.v <= UINT64_MAX)
  }

  /** Each field is the one the layout asks for, within its width. */
  lemma FieldAt(t: Byte, fs: seq<Field>, i: nat)
    requires Layout(t) == Some(Kinds(fs)) && AllLegal(fs) && i < |fs|
    ensures KindOf(fs[i]) == Layout(t).value[i] && InWidth(fs[i])
  {
    Widths();
    assert Legal(fs[i]) && Kinds(fs)[i] == KindOf(fs[i]);
  }

  lemma FieldsAt(t: Byte, fs: seq<Field>)
    requires Layout(t) == Some(Kinds(fs)) && AllLegal(fs)
    ensures |fs| == |Layout(t).value|
    ensures forall i :: 0 <= i < |fs| ==> KindOf(fs[i]) == Layout(t).value[i] && InWidth(fs[i])
  {
    forall i | 0 <= i < |fs| ensures KindOf(fs[i]) == Layout(t).value[i] && InWidth(fs[i]) {
      FieldAt(t, fs, i);
    }
  }

  lemma SetupFieldsBuild(t: Byte, fs: seq<Field>)
    requires Layout(t) == Some(Kinds(fs)) && AllLegal(fs) && t < 110
    ensures TypeOf(Build(t, fs)) == t && FieldsOf(Build(t, fs)) == fs
  {
    FieldsAt(t, fs);
  }

  lemma WalkFieldsBuild(t: Byte, fs: seq<Field>)
    requires Layout(t) == Some(Kinds(fs)) && AllLegal(fs) && 110 <= t < 116
    ensures TypeOf(Build(t, fs)) == t && FieldsOf(Build(t, fs)) == fs
  {
    FieldsAt(t, fs);
  }

  lemma FileFieldsBuild(t: Byte, fs: seq<Field>)
    requires Layout(t) == Some(Kinds(fs)) && AllLegal(fs) && 116 <= t
    ensures TypeOf(Build(t, fs)) == t && FieldsOf(Build(t, fs)) == fs
  {
    FieldsAt(t, fs);
  }

  /** Putting legal fields together and taking the message apart gives the fields. */
  lemma FieldsBuild(t: Byte, fs: seq<Field>)
    requires Layout(t) == Some(Kinds(fs)) && AllLegal(fs)
    ensures TypeOf(Build(t, fs)) == t && FieldsOf(Build(t, fs)) == fs
  {
    if t < 110 {
      SetupFieldsBuild(t, fs);
    } else if t < 116 {
      WalkFieldsBuild(t, fs);
    } else {
      FileFieldsBuild(t, fs);
    }
  }
}
