/** Encoding a list of items one after the other, for any items whose own codec is known to be faithful. */
module ListCodec {
  import opened Common
  import opened Wire

  /** A decoder's result: the value and the bytes after it. */
  type Decoded<T> = Option<(T, seq<Byte>)>

  function EncodeAll<T>(enc: T -> seq<Byte>, fs: seq<T>): seq<Byte> {
    if fs == [] then [] else enc(fs[0]) + EncodeAll(enc, fs[1..])
  }

  function DecodeAll<K, T>(dec: (K, seq<Byte>) -> Decoded<T>, ks: seq<K>, b: seq<Byte>): Decoded<seq<T>>
    decreases |ks|
  {
    if ks == [] then Some(([], b))
    else
      match dec(ks[0], b)
      case None => None
      case Some((f, rest)) =>
        match DecodeAll(dec, ks[1..], rest)
        case None => None
        case Some((fs, rest')) => Some(([f] + fs, rest'))
  }

  function KindsOf<K, T>(kind: T -> K, fs: seq<T>): (ks: seq<K>)
    ensures |ks| == |fs| && forall i :: 0 <= i < |fs| ==> ks[i] == kind(fs[i])
  {
    seq(|fs|, i requires 0 <= i < |fs| => kind(fs[i]))
  }

  function MapAll<T>(fill: T -> T, fs: seq<T>): (gs: seq<T>)
    ensures |gs| == |fs| && forall i :: 0 <= i < |fs| ==> gs[i] == fill(fs[i])
  {
    seq(|fs|, i requires 0 <= i < |fs| => fill(fs[i]))
  }

  /** Decoding an encoded item gives it back, filled in where the decoder fills it in, and stops where it ends. */
  ghost predicate Faithful<K, T(!new)>(kind: T -> K, legal: T -> bool, enc: T -> seq<Byte>, fill: T -> T,
                                       dec: (K, seq<Byte>) -> Decoded<T>) {
    forall f: T, rest: seq<Byte> :: legal(f) ==> dec(kind(f), enc(f) + rest) == Some((fill(f), rest))
  }

  /** Whatever decodes is exactly what encoding the result would have produced. */
  ghost predicate Canonical<K(!new), T>(kind: T -> K, legal: T -> bool, enc: T -> seq<Byte>,
                                        dec: (K, seq<Byte>) -> Decoded<T>) {
    forall k: K, b: seq<Byte> :: dec(k, b).Some? ==>
      var (f, rest) := dec(k, b).value; kind(f) == k && legal(f) && b == enc(f) + rest
  }

  lemma {:induction false} AllRoundTrip<K, T(!new)>(kind: T -> K, legal: T -> bool, enc: T -> seq<Byte>, fill: T -> T,
                                                    dec: (K, seq<Byte>) -> Decoded<T>, fs: seq<T>, rest: seq<Byte>)
    requires Faithful(kind, legal, enc, fill, dec)
    requires forall i :: 0 <= i < |fs| ==> legal(fs[i])
    ensures DecodeAll(dec, KindsOf(kind, fs), EncodeAll(enc, fs) + rest) == Some((MapAll(fill, fs), rest))
    decreases |fs|
  {
    if fs == [] {
      assert EncodeAll(enc, fs) + rest == rest;
    } else {
      var f, tail := fs[0], EncodeAll(enc, fs[1..]);
      assert dec(kind(f), enc(f) + (tail + rest)) == Some((fill(f), tail + rest));
      Assoc(enc(f), tail, rest);
      AllRoundTrip(kind, legal, enc, fill, dec, fs[1..], rest);
      assert KindsOf(kind, fs)[1..] == KindsOf(kind, fs[1..]);
      assert MapAll(fill, fs) == [fill(f)] + MapAll(fill, fs[1..]);
    }
  }

  lemma {:induction false} AllCanonical<K(!new), T>(kind: T -> K, legal: T -> bool, enc: T -> seq<Byte>,
                                                    dec: (K, seq<Byte>) -> Decoded<T>, ks: seq<K>, b: seq<Byte>)
    requires Canonical(kind, legal, enc, dec)
    requires DecodeAll(dec, ks, b).Some?
    ensures var (fs, rest) := DecodeAll(dec, ks, b).value;
            && KindsOf(kind, fs) == ks && (forall i :: 0 <= i < |fs| ==> legal(fs[i]))
            && b == EncodeAll(enc, fs) + rest
    decreases |ks|
  {
    if ks == [] {
      assert b == [] + b;
    } else {
      var (f, rest) := dec(ks[0], b).value;
      AllCanonical(kind, legal, enc, dec, ks[1..], rest);
      var (fs, rest') := DecodeAll(dec, ks[1..], rest).value;
      var all := [f] + fs;
      assert DecodeAll(dec, ks, b) == Some((all, rest'));
      assert b == EncodeAll(enc, all) + rest' by {
        assert all[1..] == fs;
        Assoc(enc(f), EncodeAll(enc, fs), rest');
      }
      assert KindsOf(kind, all) == ks by {
        assert forall i :: 1 <= i < |all| ==> kind(all[i]) == KindsOf(kind, fs)[i - 1];
      }
    }
  }

  /** The size of an encoded list is the sum over any cut of it. */
  lemma {:induction false} SizeAtCut<T>(enc: T -> seq<Byte>, fs: seq<T>, i: nat)
    requires i <= |fs|
    ensures |EncodeAll(enc, fs)| == |EncodeAll(enc, fs[..i])| + |EncodeAll(enc, fs[i..])|
    decreases i
  {
    if i == 0 {
      assert fs[0..] == fs;
    } else {
      SizeAtCut(enc, fs[1..], i - 1);
      assert fs[..i][1..] == fs[1..][..i - 1] && fs[1..][i - 1..] == fs[i..];
    }
  }

  lemma {:induction false} SizeBound<T>(enc: T -> seq<Byte>, fs: seq<T>, most: nat)
    requires forall i :: 0 <= i < |fs| ==> |enc(fs[i])| <= most
    ensures |EncodeAll(enc, fs)| <= |fs| * most
  {
    if fs != [] {
      SizeBound(enc, fs[1..], most);
      assert |fs| * most == (|fs| - 1) * most + most;
    }
  }
}
