/** Little-endian numbers in byte sequences. */
module Bytes {
  type byte = b: int | 0 <= b < 256

  function Pow256(n: nat): (p: nat)
    ensures p > 0
  {
    if n == 0 then 1 else 256 * Pow256(n - 1)
  }

  /** The `n` low bytes of `v`, least significant first; higher bytes are cut off. */
  function ToLE(v: nat, n: nat): (bs: seq<byte>)
    ensures |bs| == n
    decreases n, v
  {
    if n == 0 then [] else [v % 256] + ToLE(v / 256, n - 1)
  }

  function FromLE(bs: seq<byte>): nat {
    if bs == [] then 0 else bs[0] + 256 * FromLE(bs[1..])
  }

  lemma {:induction false} RoundTripLE(v: nat, n: nat)
    requires v < Pow256(n)
    ensures FromLE(ToLE(v, n)) == v
    decreases n
  {
    if n > 0 {
      assert v / 256 < Pow256(n - 1);
      RoundTripLE(v / 256, n - 1);
      assert ToLE(v, n)[1..] == ToLE(v / 256, n - 1);
    }
  }

  lemma Widths()
    ensures Pow256(4) == 0x1_0000_0000 && Pow256(8) == 0x1_0000_0000_0000_0000
  {
    assert Pow256(1) == 256 && Pow256(2) == 65536 && Pow256(3) == 16777216 && Pow256(4) == 4294967296;
    assert Pow256(5) == 256 * Pow256(4) && Pow256(6) == 256 * Pow256(5) && Pow256(7) == 256 * Pow256(6);
  }

  lemma RoundTrip32(v: nat)
    requires v < 0x1_0000_0000
    ensures FromLE(ToLE(v, 4)) == v
  {
    Widths();
    RoundTripLE(v, 4);
  }

  lemma RoundTrip64(v: nat)
    requires v < 0x1_0000_0000_0000_0000
    ensures FromLE(ToLE(v, 8)) == v
  {
    Widths();
    RoundTripLE(v, 8);
  }

  lemma {:induction false} FromLEBound(bs: seq<byte>)
    ensures FromLE(bs) < Pow256(|bs|)
  {
    if bs != [] {
      FromLEBound(bs[1..]);
    }
  }

  lemma {:induction false} RoundTripBytes(bs: seq<byte>)
    ensures ToLE(FromLE(bs), |bs|) == bs
  {
    if bs != [] {
      RoundTripBytes(bs[1..]);
      assert FromLE(bs) % 256 == bs[0] && FromLE(bs) / 256 == FromLE(bs[1..]);
      assert bs == [bs[0]] + bs[1..];
    }
  }
}
