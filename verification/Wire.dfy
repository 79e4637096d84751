/** Little-endian integers and byte buffers (proto/encode.go, proto/decode.go). */
module Wire {
  import opened Common

  function Pow256(n: nat): (p: int)
    ensures p > 0
  {
    if n == 0 then 1 else 256 * Pow256(n - 1)
  }

  /** The i-th base-256 digit of v, least significant first. */
  function Digit(v: nat, i: nat): Byte { if i == 0 then v % 256 else Digit(v / 256, i - 1) }

  /** The n-byte little-endian form of v, modulo 256^n as a narrowing conversion makes it. */
  function LE(n: nat, v: nat): (b: seq<Byte>)
    ensures |b| == n
  {
    seq(n, i requires 0 <= i < n => Digit(v, i))
  }

  lemma LEStep(n: nat, v: nat)
    requires n > 0
    ensures LE(n, v) == [v % 256] + LE(n - 1, v / 256)
  {}

  function UnLE(b: seq<Byte>): (v: nat) {
    if b == [] then 0 else b[0] + 256 * UnLE(b[1..])
  }

  lemma {:induction false} UnLEBound(b: seq<Byte>)
    ensures UnLE(b) < Pow256(|b|)
  {
    if b != [] {
      UnLEBound(b[1..]);
    }
  }

  /** Decoding an integer that fits gives it back. */
  lemma {:induction false} LERoundTrip(n: nat, v: nat)
    requires v < Pow256(n)
    ensures UnLE(LE(n, v)) == v
  {
    if n > 0 {
      LERoundTrip(n - 1, v / 256);
      LEStep(n, v);
      assert LE(n, v)[1..] == LE(n - 1, v / 256);
    }
  }

  /** Every n bytes are the form of the integer they decode to. */
  lemma {:induction false} UnLERoundTrip(b: seq<Byte>)
    ensures LE(|b|, UnLE(b)) == b
  {
    if b != [] {
      UnLERoundTrip(b[1..]);
      LEStep(|b|, UnLE(b));
      assert UnLE(b) % 256 == b[0] && UnLE(b) / 256 == UnLE(b[1..]);
    }
  }

  lemma Widths()
    ensures Pow256(1) == 256 && Pow256(2) == UINT16_MAX + 1
    ensures Pow256(4) == UINT32_MAX + 1 && Pow256(8) == UINT64_MAX + 1
  {
    assert Pow256(3) == 256 * 256 * 256;
    assert Pow256(6) == 256 * 256 * Pow256(4);
  }

  lemma Assoc(a: seq<Byte>, b: seq<Byte>, c: seq<Byte>)
    ensures a + (b + c) == (a + b) + c
  {}

  // ---------------------------------------------------------------- writing into a buffer

  /** Stores v at off, least significant byte first, and touches nothing else. */
  method PutLE(dst: array<Byte>, off: nat, n: nat, v: nat)
    requires off + n <= dst.Length
    modifies dst
    ensures dst[..off + n] == old(dst[..off]) + LE(n, v)
    ensures forall i :: off + n <= i < dst.Length ==> dst[i] == old(dst[i])
  {
    var x := v;
    var i := 0;
    while i < n
      invariant 0 <= i <= n && x >= 0
      invariant dst[..off + i] + LE(n - i, x) == old(dst[..off]) + LE(n, v)
      invariant forall k :: off + i <= k < dst.Length ==> dst[k] == old(dst[k])
    {
      ghost var before := dst[..off + i];
      LEStep(n - i, x);
      dst[off + i] := x % 256;
      assert dst[..off + i + 1] == before + [x % 256];
      x := x / 256;
      i := i + 1;
    }
    assert dst[..off + n] == dst[..off + n] + LE(0, x);
  }

  /** Copies src to off and touches nothing else. */
  method PutBytes(dst: array<Byte>, off: nat, src: seq<Byte>)
    requires off + |src| <= dst.Length
    modifies dst
    ensures dst[..off + |src|] == old(dst[..off]) + src
    ensures forall i :: off + |src| <= i < dst.Length ==> dst[i] == old(dst[i])
  {
    var i := 0;
    while i < |src|
      invariant 0 <= i <= |src|
      invariant dst[..off + i] == old(dst[..off]) + src[..i]
      invariant forall k :: off + i <= k < dst.Length ==> dst[k] == old(dst[k])
    {
      ghost var before := dst[..off + i];
      dst[off + i] := src[i];
      assert dst[..off + i + 1] == before + [src[i]];
      assert src[..i + 1] == src[..i] + [src[i]];
      i := i + 1;
    }
    assert src[..i] == src;
  }
}
