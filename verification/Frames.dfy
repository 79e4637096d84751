/** Whole frames and streams of frames (proto/frame.go, with the decoders of proto/decode.go driving it). */
module Frames {
  import opened Common
  import opened Fields
  import opened ListCodec
  import opened Messages
  import opened Wire

  const MAX_MESSAGE_SIZE := HEADER_SIZE + MAX_DATA_SIZE + 4096

  datatype Frame = Frame(tag: U16, msg: Msg)

  function Body(m: Msg): seq<Byte> { EncodeFields(FieldsOf(m)) }

  /** The encoder returns no error. */
  predicate CanEncode(m: Msg) { AllEncodable(FieldsOf(m)) }

  /** The encoder takes the message, and no nested stat overflows its outer length. */
  predicate LegalMsg(m: Msg) { AllLegal(FieldsOf(m)) }

  predicate HasStat(m: Msg) { m.Rstat? || m.Twstat? }

  /** The message with its stat's size filled in, as decoding leaves it. */
  function FillMsg(m: Msg): Msg { if HasStat(m) then m.(stat := FillStat(m.stat)) else m }

  function FillFrame(f: Frame): Frame { f.(msg := FillMsg(f.msg)) }

  /** The stat's own size field is already what it encodes to. */
  predicate SizedMsg(m: Msg) { HasStat(m) ==> m.stat.size == StatSize(m.stat) }

  /** The stat's body leaves room for the outer length to count its size prefix. */
  predicate UnwrappedMsg(m: Msg) { HasStat(m) ==> StatSize(m.stat) <= UINT16_MAX - 2 }

  function EncodeFrame(f: Frame): seq<Byte> {
    LE(4, HEADER_SIZE + |Body(f.msg)|) + (LE(1, TypeOf(f.msg)) + (LE(2, f.tag) + Body(f.msg)))
  }

  /** The body must be used up exactly. */
  function DecodeBody(t: Byte, body: seq<Byte>): Option<Msg> {
    match Layout(t)
    case None => None
    case Some(ks) =>
      match DecodeFields(ks, body)
      case None => None
      case Some((fs, rest)) => if rest == [] && Kinds(fs) == ks then Some(Build(t, fs)) else None
  }

  /** After the size and its bounds: type, tag, and a body of the remaining size. */
  function DecodeSized(size: nat, b: seq<Byte>): Decoded<Frame>
    requires size >= HEADER_SIZE
  {
    match DecodeInt(1, b)
    case None => None
    case Some((t, b1)) =>
      match DecodeInt(2, b1)
      case None => None
      case Some((tag, b2)) =>
        if t > 255 || tag > UINT16_MAX || Layout(t).None? || |b2| < size - HEADER_SIZE then None
        else
          match DecodeBody(t, b2[..size - HEADER_SIZE])
          case None => None
          case Some(m) => Some((Frame(tag, m), b2[size - HEADER_SIZE..]))
  }

  function DecodeFrame(b: seq<Byte>): Decoded<Frame> {
    match DecodeInt(4, b)
    case None => None
    case Some((size, rest)) => if size < HEADER_SIZE || size > MAX_MESSAGE_SIZE then None else DecodeSized(size, rest)
  }

  // ---------------------------------------------------------------- every encodable message fits a frame

  lemma TimesGrows(a: nat, b: nat, m: nat)
    requires a <= b
    ensures a * m <= b * m
  {}

  lemma ListSize(fs: seq<Simple>, most: nat)
    requires |fs| <= MAX_WALK_ELEMENTS && forall i :: 0 <= i < |fs| ==> |EncodeSimple(fs[i])| <= most
    ensures |EncodeList(fs)| <= MAX_WALK_ELEMENTS * most
  {
    SizeBound(EncodeSimple, fs, most);
    TimesGrows(|fs|, MAX_WALK_ELEMENTS, most);
  }

  const SMALL := 2 + 16 * (2 + UINT16_MAX)

  lemma SmallField(f: Field)
    requires Encodable(f) && IsSmall(f)
    ensures |EncodeField(f)| <= SMALL
  {
    match f
    case Plain(p) =>
    case Names(ss) => ListSize(Strings(ss), 2 + UINT16_MAX);
    case Qids(qs) => ListSize(QidFields(qs), QID_SIZE);
    case StatF(st) => StatBytesSize(st);
  }

  lemma WithData(fs: seq<Field>, d: seq<Byte>)
    requires Encodable(Data(d)) && |fs| <= 2
    requires forall i :: 0 <= i < |fs| ==> fs[i].Plain? && fs[i].p.Int? && fs[i].p.n <= 8
    ensures |EncodeFields(fs + [Data(d)])| <= MAX_DATA_SIZE + 20
  {
    var all := fs + [Data(d)];
    SizeAtCut(EncodeField, all, |fs|);
    assert all[..|fs|] == fs && all[|fs|..] == [Data(d)] && [Data(d)][1..] == [];
    SizeBound(EncodeField, fs, 8);
    assert EncodeAll(EncodeField, [Data(d)]) == EncodeField(Data(d)) + EncodeAll(EncodeField, []);
  }

  predicate IsSmall(f: Field) { !f.Data? && (f.Plain? && f.p.Int? ==> f.p.n <= 8) }

  lemma FewSmallFields(m: Msg)
    requires !m.Rread? && !m.Twrite?
    ensures |FieldsOf(m)| <= 5 && forall i :: 0 <= i < |FieldsOf(m)| ==> IsSmall(FieldsOf(m)[i])
  {}

  lemma SmallBody(fs: seq<Field>)
    requires |fs| <= 5 && AllEncodable(fs) && forall i :: 0 <= i < |fs| ==> IsSmall(fs[i])
    ensures |EncodeFields(fs)| <= 5 * SMALL
  {
    forall i | 0 <= i < |fs| ensures |EncodeField(fs[i])| <= SMALL {
      SmallField(fs[i]);
    }
    SizeBound(EncodeField, fs, SMALL);
    assert |fs| * SMALL <= 5 * SMALL;
  }

  /** No message the encoder produces is refused for its size. */
  lemma FrameFits(m: Msg)
    requires CanEncode(m)
    ensures HEADER_SIZE + |Body(m)| <= MAX_MESSAGE_SIZE
  {
    var fs := FieldsOf(m);
    if m.Rread? {
      assert Encodable(fs[0]);
      WithData([], m.data);
      assert fs == [] + [Data(m.data)];
    } else if m.Twrite? {
      assert Encodable(fs[2]);
      WithData([I(4, m.fid), I(8, m.offset)], m.data);
      assert fs == [I(4, m.fid), I(8, m.offset)] + [Data(m.data)];
    } else {
      FewSmallFields(m);
      SmallBody(fs);
    }
  }

  // ---------------------------------------------------------------- frames round trip

  lemma FillFields(m: Msg)
    ensures FieldsOf(FillMsg(m)) == MapAll(Fill, FieldsOf(m))
    ensures Kinds(FieldsOf(FillMsg(m))) == Kinds(FieldsOf(m)) && TypeOf(FillMsg(m)) == TypeOf(m)
  {
    assert FieldsOf(FillMsg(m)) == MapAll(Fill, FieldsOf(m));
  }

  lemma BodyRoundTrip(m: Msg)
    requires LegalMsg(m)
    ensures DecodeBody(TypeOf(m), Body(m)) == Some(FillMsg(m))
  {
    LayoutMatches(m);
    BuildFields(FillMsg(m));
    FillFields(m);
    FieldsRoundTrip(FieldsOf(m), []);
    assert Body(m) + [] == Body(m);
  }

  lemma WrappedTail(st: Stat)
    requires UINT16_MAX - 2 < StatSize(st) <= UINT16_MAX
    ensures DecodeFields([StatK], EncodeFields([StatF(st)])) == None
  {
    WrappedStatIsRejected(st, []);
    assert [StatF(st)][1..] == [] && EncodeAll(EncodeField, []) == [];
  }

  lemma WrappedBodyIsRejected(m: Msg)
    requires CanEncode(m) && !UnwrappedMsg(m)
    ensures DecodeBody(TypeOf(m), Body(m)) == None
  {
    var fs := FieldsOf(m);
    LayoutMatches(m);
    if m.Rstat? {
      assert Encodable(fs[0]);
      WrappedTail(m.stat);
      assert Kinds(fs) == [StatK];
    } else {
      assert Encodable(fs[0]) && Encodable(fs[1]) && fs[1..] == [StatF(m.stat)];
      WrappedTail(m.stat);
      var tail := EncodeFields([StatF(m.stat)]);
      FieldRoundTrip(fs[0], tail);
      assert Kinds(fs)[0] == KindOf(fs[0]) && Kinds(fs)[1..] == [StatK];
      assert Body(m) == EncodeField(fs[0]) + tail;
    }
  }

  lemma LegalIffUnwrapped(m: Msg)
    requires CanEncode(m)
    ensures LegalMsg(m) <==> UnwrappedMsg(m)
  {
    var fs := FieldsOf(m);
    assert forall i :: 0 <= i < |fs| ==> Encodable(fs[i]);
    if m.Rstat? {
      assert Legal(fs[0]) <==> UnwrappedMsg(m);
    } else if m.Twstat? {
      assert Legal(fs[1]) <==> UnwrappedMsg(m);
    }
  }

  lemma LegalIsEncodable(m: Msg)
    requires LegalMsg(m)
    ensures CanEncode(m)
  {
    assert forall i :: 0 <= i < |FieldsOf(m)| ==> Legal(FieldsOf(m)[i]);
  }

  lemma SizedRoundTrip(t: Byte, tag: U16, body: seq<Byte>, rest: seq<Byte>)
    requires Layout(t).Some?
    ensures DecodeSized(HEADER_SIZE + |body|, LE(1, t) + (LE(2, tag) + (body + rest)))
            == match DecodeBody(t, body) case None => None case Some(m) => Some((Frame(tag, m), rest))
  {
    Widths();
    IntRoundTrip(1, t, LE(2, tag) + (body + rest));
    Fits2(tag);
    IntRoundTrip(2, tag, body + rest);
    assert (body + rest)[..|body|] == body && (body + rest)[|body|..] == rest;
  }

  lemma FrameLayout(f: Frame, rest: seq<Byte>)
    ensures EncodeFrame(f) + rest
            == LE(4, HEADER_SIZE + |Body(f.msg)|) + (LE(1, TypeOf(f.msg)) + (LE(2, f.tag) + (Body(f.msg) + rest)))
  {
    var body := Body(f.msg);
    var a, b, c := LE(4, HEADER_SIZE + |body|), LE(1, TypeOf(f.msg)), LE(2, f.tag);
    Assoc(c, body, rest);
    Assoc(b, c + body, rest);
    Assoc(a, b + (c + body), rest);
  }

  /** An encoded frame decodes as its body does. */
  lemma FrameDecodesAsBody(f: Frame, rest: seq<Byte>)
    requires CanEncode(f.msg)
    ensures DecodeFrame(EncodeFrame(f) + rest)
            == match DecodeBody(TypeOf(f.msg), Body(f.msg))
               case None => None
               case Some(m) => Some((Frame(f.tag, m), rest))
  {
    var body := Body(f.msg);
    FrameFits(f.msg);
    LayoutMatches(f.msg);
    Fits4(HEADER_SIZE + |body|);
    IntRoundTrip(4, HEADER_SIZE + |body|, LE(1, TypeOf(f.msg)) + (LE(2, f.tag) + (body + rest)));
    FrameLayout(f, rest);
    SizedRoundTrip(TypeOf(f.msg), f.tag, body, rest);
  }

  /**
   Decoding an encoded legal frame gives the tag and message back, a stat's size filled in, and leaves exactly
   what follows.
   */
  lemma FrameRoundTrip(f: Frame, rest: seq<Byte>)
    requires LegalMsg(f.msg)
    ensures DecodeFrame(EncodeFrame(f) + rest) == Some((FillFrame(f), rest))
  {
    LegalIsEncodable(f.msg);
    FrameDecodesAsBody(f, rest);
    BodyRoundTrip(f.msg);
  }

  function EncodeStream(fs: seq<Frame>): seq<Byte> { EncodeAll(EncodeFrame, fs) }

  function NextFrame(u: (), b: seq<Byte>): Decoded<Frame> { DecodeFrame(b) }

  /** Reads n frames off a stream. */
  function DecodeStream(n: nat, b: seq<Byte>): Decoded<seq<Frame>> { DecodeAll(NextFrame, seq(n, _ => ()), b) }

  predicate LegalFrame(f: Frame) { LegalMsg(f.msg) }

  function AnyFrame(f: Frame): () { () }

  /** A stream of legal frames decodes to the same frames, filled in, and leaves exactly the bytes after them. */
  lemma StreamRoundTrip(fs: seq<Frame>, rest: seq<Byte>)
    requires forall i :: 0 <= i < |fs| ==> LegalFrame(fs[i])
    ensures DecodeStream(|fs|, EncodeStream(fs) + rest) == Some((MapAll(FillFrame, fs), rest))
  {
    forall f: Frame, r: seq<Byte> | LegalFrame(f)
      ensures NextFrame(AnyFrame(f), EncodeFrame(f) + r) == Some((FillFrame(f), r))
    {
      FrameRoundTrip(f, r);
    }
    AllRoundTrip(AnyFrame, LegalFrame, EncodeFrame, FillFrame, NextFrame, fs, rest);
    assert KindsOf(AnyFrame, fs) == seq(|fs|, _ => ());
  }

  // ---------------------------------------------------------------- what decodes is canonical

  /** What decoding yields: a legal message with nothing left to fill in. */
  predicate FilledMsg(m: Msg) { LegalMsg(m) && SizedMsg(m) }

  lemma FilledFields(m: Msg)
    requires AllFilled(FieldsOf(m))
    ensures FilledMsg(m)
  {
    var fs := FieldsOf(m);
    assert forall i :: 0 <= i < |fs| ==> Filled(fs[i]);
    if m.Rstat? {
      assert Filled(fs[0]);
    } else if m.Twstat? {
      assert Filled(fs[1]);
    }
  }

  lemma FieldsLegal(fs: seq<Field>)
    requires AllFilled(fs)
    ensures AllLegal(fs)
  {
    assert forall i :: 0 <= i < |fs| ==> Filled(fs[i]);
  }

  lemma BodyCanonical(t: Byte, body: seq<Byte>)
    requires DecodeBody(t, body).Some?
    ensures var m := DecodeBody(t, body).value; TypeOf(m) == t && FilledMsg(m) && Body(m) == body
  {
    var ks := Layout(t).value;
    FieldsCanonical(ks, body);
    var fs := DecodeFields(ks, body).value.0;
    FieldsLegal(fs);
    FieldsBuild(t, fs);
    FilledFields(Build(t, fs));
    assert body == EncodeFields(fs) + [];
  }

  lemma SizedCut(size: nat, b: seq<Byte>) returns (t: Byte, tag: U16, body: seq<Byte>, rest: seq<Byte>)
    requires size >= HEADER_SIZE && DecodeSized(size, b).Some?
    ensures size == HEADER_SIZE + |body| && b == LE(1, t) + (LE(2, tag) + (body + rest))
    ensures DecodeBody(t, body).Some? && DecodeSized(size, b) == Some((Frame(tag, DecodeBody(t, body).value), rest))
  {
    IntCanonical(1, b);
    var b1 := DecodeInt(1, b).value.1;
    IntCanonical(2, b1);
    var b2 := DecodeInt(2, b1).value.1;
    t, tag := DecodeInt(1, b).value.0, DecodeInt(2, b1).value.0;
    body, rest := b2[..size - HEADER_SIZE], b2[size - HEADER_SIZE..];
    assert b2 == body + rest;
  }

  lemma SizedCanonical(size: nat, b: seq<Byte>)
    requires size >= HEADER_SIZE && DecodeSized(size, b).Some?
    ensures var (f, rest) := DecodeSized(size, b).value;
            && FilledMsg(f.msg) && size == HEADER_SIZE + |Body(f.msg)|
            && b == LE(1, TypeOf(f.msg)) + (LE(2, f.tag) + (Body(f.msg) + rest))
  {
    var t, tag, body, rest := SizedCut(size, b);
    BodyCanonical(t, body);
  }

  /** Only the encoding of a legal frame decodes to it: the decoder accepts no other form. */
  lemma FrameCanonical(b: seq<Byte>)
    requires DecodeFrame(b).Some?
    ensures var (f, rest) := DecodeFrame(b).value; FilledMsg(f.msg) && b == EncodeFrame(f) + rest
  {
    IntCanonical(4, b);
    var (size, tail) := DecodeInt(4, b).value;
    SizedCanonical(size, tail);
    var (f, rest) := DecodeFrame(b).value;
    FrameLayout(f, rest);
  }

  predicate FilledFrame(f: Frame) { FilledMsg(f.msg) }

  /** Nor does any other byte stream decode to a list of frames. */
  lemma StreamCanonical(n: nat, b: seq<Byte>)
    requires DecodeStream(n, b).Some?
    ensures var (fs, rest) := DecodeStream(n, b).value;
            |fs| == n && (forall i :: 0 <= i < n ==> FilledFrame(fs[i])) && b == EncodeStream(fs) + rest
  {
    forall u: (), c: seq<Byte> | NextFrame(u, c).Some?
      ensures var (f, rest) := NextFrame(u, c).value; AnyFrame(f) == u && FilledFrame(f) && c == EncodeFrame(f) + rest
    {
      FrameCanonical(c);
    }
    AllCanonical(AnyFrame, FilledFrame, EncodeFrame, NextFrame, seq(n, _ => ()), b);
  }

  lemma StatFits(m: Msg)
    requires CanEncode(m) && HasStat(m)
    ensures StatSize(m.stat) <= UINT16_MAX
  {
    var fs := FieldsOf(m);
    if m.Rstat? {
      assert Encodable(fs[0]);
    } else {
      assert Encodable(fs[1]);
    }
  }

  lemma FillsIffUnsized(m: Msg)
    requires CanEncode(m)
    ensures FillMsg(m) == m <==> SizedMsg(m)
  {
    if HasStat(m) {
      StatFits(m);
    }
  }

  /**
   Of the messages the encoder takes, exactly those whose stat body is at most 65533 bytes come back, with the
   stat's size filled in; they come back unchanged exactly when that size was right already. The others are
   refused.
   */
  lemma RoundTripsIffUnwrapped(f: Frame, rest: seq<Byte>)
    requires CanEncode(f.msg)
    ensures DecodeFrame(EncodeFrame(f) + rest) == if UnwrappedMsg(f.msg) then Some((FillFrame(f), rest)) else None
    ensures FillFrame(f) == f <==> SizedMsg(f.msg)
  {
    LegalIffUnwrapped(f.msg);
    if UnwrappedMsg(f.msg) {
      FrameRoundTrip(f, rest);
    } else {
      FrameDecodesAsBody(f, rest);
      WrappedBodyIsRejected(f.msg);
    }
    FillsIffUnsized(f.msg);
  }
}
