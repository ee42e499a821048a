// Bytes, big-endian integers and page-aligned slices of a file image.
module Bytes {
  newtype byte = x: int | 0 <= x < 256

  function Zeros(n: nat): (s: seq<byte>)
    ensures |s| == n
    ensures forall i :: 0 <= i < n ==> s[i] == 0
  {
    seq(n, _ => 0 as byte)
  }

  function Pow256(n: nat): nat
  {
    if n == 0 then 1 else 256 * Pow256(n - 1)
  }

  // The low n bytes of v, most significant first: what a uint32 or uint64 conversion
  // followed by a big-endian store leaves in memory.
  function PutBE(v: nat, n: nat): (s: seq<byte>)
    ensures |s| == n
  {
    if n == 0 then [] else PutBE(v / 256, n - 1) + [(v % 256) as byte]
  }

  function GetBE(s: seq<byte>): nat
  {
    if s == [] then 0 else GetBE(s[..|s| - 1]) * 256 + s[|s| - 1] as nat
  }

  // Storing and loading n bytes loses exactly what does not fit in n bytes.
  lemma {:induction false} BigEndianRoundTrip(v: nat, n: nat)
    requires v < Pow256(n)
    ensures GetBE(PutBE(v, n)) == v
  {
    if n > 0 {
      BigEndianRoundTrip(v / 256, n - 1);
      assert PutBE(v, n)[..n - 1] == PutBE(v / 256, n - 1);
    }
  }

  // Two's complement view of a signed 64-bit integer as uint64 and back.
  const TWO63: int := 0x8000_0000_0000_0000
  const TWO64: int := 0x1_0000_0000_0000_0000

  function ToU64(t: int): (u: nat)
    ensures u < TWO64
  {
    t % TWO64
  }

  function FromU64(u: nat): int
  {
    if u % TWO64 >= TWO63 then u % TWO64 - TWO64 else u % TWO64
  }

  lemma Signed64RoundTrip(t: int)
    requires -TWO63 <= t < TWO63
    ensures FromU64(GetBE(PutBE(ToU64(t), 8))) == t
  {
    assert Pow256(8) == TWO64 by {
      assert Pow256(2) == 0x1_0000;
      assert Pow256(4) == 0x1_0000_0000;
      assert Pow256(6) == 0x1_0000_0000_0000;
    }
    BigEndianRoundTrip(ToU64(t), 8);
  }

  lemma Length32RoundTrip(n: nat)
    requires n < 0x1_0000_0000
    ensures GetBE(PutBE(n, 4)) == n
  {
    assert Pow256(2) == 0x1_0000;
    BigEndianRoundTrip(n, 4);
  }
}
