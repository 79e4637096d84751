/**
 The codec as it runs: a reader consumed field by field and a buffer that grows and is patched in place
 (proto/decode.go, proto/encode.go, proto/frame.go, the EncodeTo and DecodeFrom methods).
 */
module CodecObjects {
  import opened Common
  import opened Fields
  import opened Frames
  import opened ListCodec
  import opened Messages
  import opened Wire
  import D = Dirents

  /** The method returned what the decoder function gives, and on success left the reader after it. */
  ghost predicate Agrees<T>(r: Option<T>, spec: Decoded<T>, rest: seq<Byte>) {
    match spec
    case None => r == None
    case Some((v, after)) => r == Some(v) && rest == after
  }

  function Prepend<T>(fs: seq<T>, d: Decoded<seq<T>>): Decoded<seq<T>> {
    match d
    case None => None
    case Some((gs, rest)) => Some((fs + gs, rest))
  }

  lemma PrependNothing<T>(d: Decoded<seq<T>>)
    ensures Prepend([], d) == d
  {
    if d.Some? {
      assert [] + d.value.0 == d.value.0;
    }
  }

  /** One more item moves from the part still to be decoded to the part done. */
  lemma OneMore<K, T>(dec: (K, seq<Byte>) -> Decoded<T>, ks: seq<K>, i: nat, done: seq<T>, b: seq<Byte>)
    requires i < |ks|
    ensures Prepend(done, DecodeAll(dec, ks[i..], b))
            == match dec(ks[i], b)
               case None => None
               case Some((f, rest)) => Prepend(done + [f], DecodeAll(dec, ks[i + 1..], rest))
  {
    assert ks[i..][0] == ks[i] && ks[i..][1..] == ks[i + 1..];
    match dec(ks[i], b)
    case None =>
    case Some((f, rest)) =>
      match DecodeAll(dec, ks[i + 1..], rest)
      case None =>
      case Some((gs, _)) => assert done + ([f] + gs) == (done + [f]) + gs;
  }

  class Reader {
    const data: seq<Byte>
    var pos: nat

    ghost predicate Valid()
      reads this
    {
      pos <= |data|
    }

    ghost function Rest(): seq<Byte>
      requires Valid()
      reads this
    {
      data[pos..]
    }

    constructor (data: seq<Byte>)
      ensures Valid() && Rest() == data && this.data == data
    {
      this.data, pos := data, 0;
    }

    /** io.ReadFull: all n bytes or none of them. */
    method ReadBytes(n: nat) returns (r: Option<seq<Byte>>)
      requires Valid()
      modifies `pos
      ensures Valid()
      ensures r == if n <= |old(Rest())| then Some(old(Rest())[..n]) else None
      ensures r.Some? ==> Rest() == old(Rest())[n..]
    {
      if |data| - pos < n {
        return None;
      }
      r := Some(data[pos..pos + n]);
      assert data[pos..][..n] == data[pos..pos + n] && data[pos..][n..] == data[pos + n..];
      pos := pos + n;
    }

    method ReadUint(n: nat) returns (r: Option<nat>)
      requires Valid()
      modifies `pos
      ensures Valid() && Agrees(r, DecodeInt(n, old(Rest())), Rest())
    {
      var b := ReadBytes(n);
      return if b.None? then None else Some(UnLE(b.value));
    }

    method ReadString() returns (r: Option<seq<Byte>>)
      requires Valid()
      modifies `pos
      ensures Valid() && Agrees(r, DecodeStr(old(Rest())), Rest())
    {
      ghost var all := Rest();
      var n := ReadUint(2);
      if n.None? {
        return None;
      }
      r := ReadBytes(n.value);
      if r.Some? {
        assert all[2..][..n.value] == all[2..2 + n.value] && all[2..][n.value..] == all[2 + n.value..];
      }
    }

    method ReadQid() returns (r: Option<Qid>)
      requires Valid()
      modifies `pos
      ensures Valid() && Agrees(r, DecodeQid(old(Rest())), Rest())
    {
      ghost var all := Rest();
      Widths();
      var t := ReadUint(1);
      if t.None? {
        return None;
      }
      var version := ReadUint(4);
      if version.None? {
        return None;
      }
      var path := ReadUint(8);
      if path.None? {
        return None;
      }
      UnLEBound(all[..1]);
      UnLEBound(all[1..5]);
      UnLEBound(all[5..13]);
      assert all[1..][..4] == all[1..5] && all[1..][4..] == all[5..];
      assert all[5..][..8] == all[5..13] && all[5..][8..] == all[13..];
      assert UnLE(all[..1]) == all[0] + 256 * UnLE(all[..1][1..]) && all[..1][1..] == [];
      return Some(D.Qid(t.value, version.value, path.value));
    }

    method ReadSimple(k: SimpleKind) returns (r: Option<Simple>)
      requires Valid()
      modifies `pos
      ensures Valid() && Agrees(r, DecodeSimple(k, old(Rest())), Rest())
    {
      match k
      case IntK(n) =>
        var v := ReadUint(n);
        return if v.None? then None else Some(Int(n, v.value));
      case StrK =>
        var s := ReadString();
        return if s.None? then None else Some(Str(s.value));
      case QidK =>
        var q := ReadQid();
        return if q.None? then None else Some(QidF(q.value));
    }

    method ReadSimples(ks: seq<SimpleKind>) returns (r: Option<seq<Simple>>)
      requires Valid()
      modifies `pos
      ensures Valid() && Agrees(r, DecodeList(ks, old(Rest())), Rest())
    {
      var out: seq<Simple> := [];
      ghost var spec := DecodeList(ks, Rest());
      assert ks[0..] == ks;
      PrependNothing(spec);
      for i := 0 to |ks|
        invariant Valid() && spec == Prepend(out, DecodeAll(DecodeSimple, ks[i..], Rest()))
      {
        OneMore(DecodeSimple, ks, i, out, Rest());
        var f := ReadSimple(ks[i]);
        if f.None? {
          return None;
        }
        out := out + [f.value];
      }
      assert ks[|ks|..] == [] && out + [] == out;
      return Some(out);
    }

    /** A count of at most 16, then that many items. */
    method ReadCounted(k: SimpleKind) returns (r: Option<seq<Simple>>)
      requires Valid()
      modifies `pos
      ensures Valid() && Agrees(r, DecodeCounted(k, old(Rest())), Rest())
    {
      var n := ReadUint(2);
      if n.None? || n.value > MAX_WALK_ELEMENTS {
        return None;
      }
      r := ReadSimples(Repeat(k, n.value));
    }

    method ReadData() returns (r: Option<seq<Byte>>)
      requires Valid()
      modifies `pos
      ensures Valid() && Agrees(r, DecodeData(old(Rest())), Rest())
    {
      var n := ReadUint(4);
      if n.None? || n.value > MAX_DATA_SIZE {
        return None;
      }
      r := ReadBytes(n.value);
    }

    /** The bytes a limited reader lets through must hold one stat exactly. */
    method ReadStat() returns (r: Option<Stat>)
      requires Valid()
      modifies `pos
      ensures Valid() && Agrees(r, DecodeStat(old(Rest())), Rest())
    {
      var nstat := ReadUint(2);
      if nstat.None? {
        return None;
      }
      var window := ReadBytes(nstat.value);
      if window.None? {
        return None;
      }
      var inner := new Reader(window.value);
      var size := inner.ReadUint(2);
      if size.None? || size.value != |inner.data| - inner.pos || size.value > UINT16_MAX {
        return None;
      }
      var fs := inner.ReadSimples(StatKinds());
      if fs.None? || inner.pos != |inner.data| || |fs.value| != 15 {
        return None;
      }
      return Some(StatFrom(size.value, fs.value));
    }

    method ReadField(k: Kind) returns (r: Option<Field>)
      requires Valid()
      modifies `pos
      ensures Valid() && Agrees(r, DecodeField(k, old(Rest())), Rest())
    {
      match k
      case PlainK(s) =>
        var p := ReadSimple(s);
        return if p.None? then None else Some(Plain(p.value));
      case NamesK =>
        var fs := ReadCounted(StrK);
        return if fs.None? then None else Some(Names(UnStr(fs.value)));
      case QidsK =>
        var fs := ReadCounted(QidK);
        return if fs.None? then None else Some(Qids(UnQid(fs.value)));
      case DataK =>
        var d := ReadData();
        return if d.None? then None else Some(Data(d.value));
      case StatK =>
        var st := ReadStat();
        return if st.None? then None else Some(StatF(st.value));
    }

    method ReadFields(ks: seq<Kind>) returns (r: Option<seq<Field>>)
      requires Valid()
      modifies `pos
      ensures Valid() && Agrees(r, DecodeFields(ks, old(Rest())), Rest())
    {
      var out: seq<Field> := [];
      ghost var spec := DecodeFields(ks, Rest());
      assert ks[0..] == ks;
      PrependNothing(spec);
      for i := 0 to |ks|
        invariant Valid() && spec == Prepend(out, DecodeAll(DecodeField, ks[i..], Rest()))
      {
        OneMore(DecodeField, ks, i, out, Rest());
        var f := ReadField(ks[i]);
        if f.None? {
          return None;
        }
        out := out + [f.value];
      }
      assert ks[|ks|..] == [] && out + [] == out;
      return Some(out);
    }
  }

  /** Decodes the body into the message of its type, refusing trailing bytes. */
  method ReadBody(t: Byte, body: seq<Byte>) returns (r: Option<Msg>)
    ensures r == DecodeBody(t, body)
  {
    var layout := Layout(t);
    if layout.None? {
      return None;
    }
    var br := new Reader(body);
    var fs := br.ReadFields(layout.value);
    if fs.None? || br.pos != |br.data| {
      return None;
    }
    FieldsCanonical(layout.value, body);
    return Some(Build(t, fs.value));
  }

  /** Reads one frame off the reader, and nothing past it. */
  method ReadFrame(r: Reader) returns (frame: Option<Frame>)
    requires r.Valid()
    modifies r`pos
    ensures r.Valid() && Agrees(frame, DecodeFrame(old(r.Rest())), r.Rest())
  {
    var size := r.ReadUint(4);
    if size.None? || size.value < HEADER_SIZE || size.value > MAX_MESSAGE_SIZE {
      return None;
    }
    ghost var b := r.Rest();
    var t := r.ReadUint(1);
    if t.None? {
      return None;
    }
    ghost var b1 := r.Rest();
    var tag := r.ReadUint(2);
    if tag.None? || t.value > 255 || tag.value > UINT16_MAX {
      return None;
    }
    if Layout(t.value).None? {
      return None;
    }
    var body := r.ReadBytes(size.value - HEADER_SIZE);
    if body.None? {
      return None;
    }
    var m := ReadBody(t.value, body.value);
    return if m.None? then None else Some(Frame(tag.value, m.value));
  }

  // ---------------------------------------------------------------- encoding

  /** Go's field types already hold integers to their width. */
  predicate Typed(f: Field) { f.Plain? && f.p.Int? ==> LegalSimple(f.p) }

  class Buffer {
    var out: seq<Byte>

    constructor ()
      ensures out == []
    {
      out := [];
    }

    method WriteString(s: seq<Byte>) returns (ok: bool)
      modifies `out
      ensures ok <==> |s| <= UINT16_MAX
      ensures ok ==> out == old(out) + EncodeSimple(Str(s))
    {
      if |s| > UINT16_MAX {
        return false;
      }
      out := out + (LE(2, |s|) + s);
      return true;
    }

    method WriteSimple(f: Simple) returns (ok: bool)
      requires f.Int? ==> LegalSimple(f)
      modifies `out
      ensures ok <==> LegalSimple(f)
      ensures ok ==> out == old(out) + EncodeSimple(f)
    {
      match f
      case Int(n, v) =>
        out := out + LE(n, v);
        return true;
      case Str(s) => ok := WriteString(s);
      case QidF(q) =>
        out := out + D.EncodeQid(q);
        return true;
    }

    /** Items in order, up to the first that cannot be written. */
    method WriteSimples(fs: seq<Simple>) returns (ok: bool)
      requires forall i :: 0 <= i < |fs| ==> fs[i].Int? ==> LegalSimple(fs[i])
      modifies `out
      ensures ok <==> LegalList(fs)
      ensures ok ==> out == old(out) + EncodeList(fs)
    {
      ghost var all := out + EncodeList(fs);
      assert fs[0..] == fs;
      for i := 0 to |fs|
        invariant out + EncodeAll(EncodeSimple, fs[i..]) == all
        invariant forall j :: 0 <= j < i ==> LegalSimple(fs[j])
      {
        assert fs[i..][0] == fs[i] && fs[i..][1..] == fs[i + 1..];
        ghost var before := out;
        ok := WriteSimple(fs[i]);
        if !ok {
          return;
        }
        Assoc(before, EncodeSimple(fs[i]), EncodeAll(EncodeSimple, fs[i + 1..]));
      }
      assert fs[|fs|..] == [] && out + [] == out;
      return true;
    }

    method WriteCounted(fs: seq<Simple>) returns (ok: bool)
      requires forall i :: 0 <= i < |fs| ==> !fs[i].Int?
      modifies `out
      ensures ok <==> |fs| <= MAX_WALK_ELEMENTS && LegalList(fs)
      ensures ok ==> out == old(out) + (LE(2, |fs|) + EncodeList(fs))
    {
      if |fs| > MAX_WALK_ELEMENTS {
        return false;
      }
      ghost var before := out;
      out := out + LE(2, |fs|);
      ok := WriteSimples(fs);
      Assoc(before, LE(2, |fs|), EncodeList(fs));
    }

    method WriteStat(st: Stat) returns (ok: bool)
      modifies `out
      ensures ok <==> Encodable(StatF(st))
      ensures ok ==> out == old(out) + EncodeField(StatF(st))
    {
      if StatSize(st) > UINT16_MAX {
        return false;
      }
      ghost var before := out;
      StatIsLegal(st);
      out := out + LE(2, Nstat(st));
      ghost var outer := out;
      out := out + LE(2, StatSize(st));
      ok := WriteSimples(StatFields(st));
      Assoc(outer, LE(2, StatSize(st)), EncodeList(StatFields(st)));
      Assoc(before, LE(2, Nstat(st)), StatBytes(st));
    }

    method WriteField(f: Field) returns (ok: bool)
      requires Typed(f)
      modifies `out
      ensures ok <==> Encodable(f)
      ensures ok ==> out == old(out) + EncodeField(f)
    {
      match f
      case Plain(p) => ok := WriteSimple(p);
      case Names(ss) =>
        LegalNames(ss);
        ok := WriteCounted(Strings(ss));
      case Qids(qs) => ok := WriteCounted(QidFields(qs));
      case Data(d) =>
        if |d| > MAX_DATA_SIZE {
          return false;
        }
        out := out + (LE(4, |d|) + d);
        return true;
      case StatF(st) => ok := WriteStat(st);
    }

    method WriteFields(fs: seq<Field>) returns (ok: bool)
      requires forall i :: 0 <= i < |fs| ==> Typed(fs[i])
      modifies `out
      ensures ok <==> AllEncodable(fs)
      ensures ok ==> out == old(out) + EncodeFields(fs)
    {
      ghost var all := out + EncodeFields(fs);
      assert fs[0..] == fs;
      for i := 0 to |fs|
        invariant out + EncodeAll(EncodeField, fs[i..]) == all
        invariant forall j :: 0 <= j < i ==> Encodable(fs[j])
      {
        assert fs[i..][0] == fs[i] && fs[i..][1..] == fs[i + 1..];
        ghost var before := out;
        ok := WriteField(fs[i]);
        if !ok {
          return;
        }
        Assoc(before, EncodeField(fs[i]), EncodeAll(EncodeField, fs[i + 1..]));
      }
      assert fs[|fs|..] == [] && out + [] == out;
      return true;
    }
  }

  lemma LegalNames(ss: seq<seq<Byte>>)
    ensures LegalList(Strings(ss)) <==> forall i :: 0 <= i < |ss| ==> |ss[i]| <= UINT16_MAX
  {
    if LegalList(Strings(ss)) {
      forall i | 0 <= i < |ss| ensures |ss[i]| <= UINT16_MAX {
        assert LegalSimple(Strings(ss)[i]);
      }
    }
  }

  lemma MessagesAreTyped(m: Msg)
    ensures forall i :: 0 <= i < |FieldsOf(m)| ==> Typed(FieldsOf(m)[i])
  {
    Widths();
  }

  /** Patches the header into the room left for it at the front of the buffer. */
  method PatchHeader(b: array<Byte>, size: nat, t: Byte, tag: U16)
    requires b.Length >= HEADER_SIZE
    modifies b
    ensures b[..HEADER_SIZE] == LE(4, size) + LE(1, t) + LE(2, tag)
    ensures forall i :: HEADER_SIZE <= i < b.Length ==> b[i] == old(b[i])
  {
    PutLE(b, 0, 4, size);
    assert b[..4] == LE(4, size);
    PutLE(b, 4, 1, t);
    PutLE(b, 5, 2, tag);
  }

  lemma FrameParts(f: Frame, header: seq<Byte>, body: seq<Byte>)
    requires body == Body(f.msg)
    requires header == LE(4, HEADER_SIZE + |body|) + LE(1, TypeOf(f.msg)) + LE(2, f.tag)
    ensures header + body == EncodeFrame(f)
  {
    var a, b, c := LE(4, HEADER_SIZE + |body|), LE(1, TypeOf(f.msg)), LE(2, f.tag);
    Assoc(a + b, c, body);
    Assoc(a, b, c + body);
  }

  /** Assembles header and body in one buffer, the header patched in once the size is known. */
  method WriteFrame(f: Frame) returns (r: Option<array<Byte>>)
    ensures r.Some? <==> CanEncode(f.msg)
    ensures r.Some? ==> r.value[..] == EncodeFrame(f)
  {
    var w := new Buffer();
    MessagesAreTyped(f.msg);
    var ok := w.WriteFields(FieldsOf(f.msg));
    if !ok {
      return None;
    }
    var body := w.out;
    assert body == Body(f.msg);
    var b := new Byte[HEADER_SIZE + |body|](i => 0);
    PutBytes(b, HEADER_SIZE, body);
    assert b[HEADER_SIZE..] == body;
    PatchHeader(b, b.Length, TypeOf(f.msg), f.tag);
    assert b[HEADER_SIZE..] == body;
    assert b[..] == b[..HEADER_SIZE] + b[HEADER_SIZE..];
    FrameParts(f, b[..HEADER_SIZE], body);
    return Some(b);
  }
}
