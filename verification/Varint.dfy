/** QUIC variable-length integers (section 16 of RFC 9000), and the big-endian integers they are made of. */
module Varint {
  import opened Common

  function Pow256(k: nat): (r: nat)
    ensures r > 0
  {
    if k == 0 then 1 else 256 * Pow256(k - 1)
  }

  /** The `k` low bytes of `x`, most significant first. */
  function BigEndian(x: nat, k: nat): (b: seq<Byte>)
    ensures |b| == k
  {
    if k == 0 then [] else BigEndian(x / 256, k - 1) + [x % 256]
  }

  function Value(b: seq<Byte>): (x: nat) {
    if b == [] then 0 else 256 * Value(b[..|b| - 1]) + b[|b| - 1]
  }

  lemma {:induction false} BigEndianRoundTrip(x: nat, k: nat)
    requires x < Pow256(k)
    ensures Value(BigEndian(x, k)) == x
  {
    if k > 0 {
      BigEndianRoundTrip(x / 256, k - 1);
      assert BigEndian(x, k)[..k - 1] == BigEndian(x / 256, k - 1);
    }
  }

  /** The first byte gives the value up to the remaining bytes. */
  lemma {:induction false} FirstByte(b: seq<Byte>)
    requires b != []
    ensures b[0] * Pow256(|b| - 1) <= Value(b) < b[0] * Pow256(|b| - 1) + Pow256(|b| - 1)
  {
    if |b| > 1 {
      FirstByte(b[..|b| - 1]);
      Shift(b[0], Pow256(|b| - 2), Value(b[..|b| - 1]), b[|b| - 1]);
    }
  }

  /** One more byte behind the first ones. */
  lemma Shift(first: nat, p: nat, v: nat, last: Byte)
    requires first * p <= v < first * p + p
    ensures first * (256 * p) <= 256 * v + last < first * (256 * p) + 256 * p
  {
    assert first * (256 * p) == 256 * (first * p);
  }

  lemma Powers()
    ensures Pow256(0) == 1 && Pow256(1) == 0x100 && Pow256(2) == 0x1_0000 && Pow256(3) == 0x100_0000
    ensures Pow256(4) == 0x1_0000_0000 && Pow256(7) == 0x100_0000_0000_0000 && Pow256(8) == 0x1_0000_0000_0000_0000
  {
    assert Pow256(2) == 256 * Pow256(1);
    assert Pow256(3) == 256 * Pow256(2);
    assert Pow256(4) == 256 * Pow256(3);
    assert Pow256(5) == 256 * Pow256(4);
    assert Pow256(6) == 256 * Pow256(5);
    assert Pow256(7) == 256 * Pow256(6);
    assert Pow256(8) == 256 * Pow256(7);
  }

  type VarInt = x: nat | x <= VARINT_MAX

  function Len(x: VarInt): (n: nat) {
    if x <= 63 then 1 else if x <= 16383 then 2 else if x <= 1073741823 then 4 else 8
  }

  /** The two high bits of the first byte, which give the length. */
  function Marker(n: nat): (r: nat) {
    if n == 1 then 0 else if n == 2 then 0x4000 else if n == 4 then 0x8000_0000 else 0xC000_0000_0000_0000
  }

  /** quicvarint.Append to an empty slice. */
  function Encode(x: VarInt): (b: seq<Byte>)
    ensures |b| == Len(x)
  {
    BigEndian(x + Marker(Len(x)), Len(x))
  }

  function LenOfFirst(first: Byte): (n: nat)
    ensures n == 1 || n == 2 || n == 4 || n == 8
  {
    if first < 0x40 then 1 else if first < 0x80 then 2 else if first < 0xC0 then 4 else 8
  }

  /** The integer at the start of `b`, if `b` holds all of it, and how many bytes it takes. */
  function Decode(b: seq<Byte>): (r: Option<(nat, nat)>)
    ensures r.Some? ==> 0 < r.value.1 <= |b|
  {
    if b == [] || |b| < LenOfFirst(b[0]) then None
    else
      var n := LenOfFirst(b[0]);
      MarkerBelow(b[..n]);
      Some((Value(b[..n]) - Marker(n), n))
  }

  lemma MarkerBelow(b: seq<Byte>)
    requires b != [] && |b| == LenOfFirst(b[0])
    ensures Marker(|b|) <= Value(b) <= VARINT_MAX + Marker(|b|)
  {
    Powers();
    FirstByte(b);
  }

  lemma EncodedFirst(x: VarInt)
    ensures LenOfFirst(Encode(x)[0]) == Len(x)
    ensures Value(Encode(x)) == x + Marker(Len(x))
  {
    Powers();
    var marked, n := x + Marker(Len(x)), Len(x);
    hide Pow256, BigEndian, Value;
    BigEndianRoundTrip(marked, n);
    FirstByte(Encode(x));
  }

  /** Encoding an integer and decoding it gives it back, whatever follows. */
  lemma RoundTrip(x: VarInt, rest: seq<Byte>)
    ensures Decode(Encode(x) + rest) == Some((x as nat, Len(x)))
  {
    EncodedFirst(x);
    var b := Encode(x) + rest;
    assert b[0] == Encode(x)[0];
    assert b[..Len(x)] == Encode(x);
  }

  /** A cut-off encoding does not decode. */
  lemma CutOff(x: VarInt, k: nat)
    requires k < Len(x)
    ensures Decode(Encode(x)[..k]) == None
  {
    EncodedFirst(x);
  }

  /** What decodes is in range. */
  lemma DecodedInRange(b: seq<Byte>)
    requires Decode(b).Some?
    ensures Decode(b).value.0 <= VARINT_MAX
  {
    MarkerBelow(b[..LenOfFirst(b[0])]);
  }
}
