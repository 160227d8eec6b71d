/** Bytes and big-endian numbers, shared by every wire format in the project. */
module Bytes {
  type byte = x: int | 0 <= x < 0x100
  type Word = x: int | 0 <= x < 0x1_0000_0000

  datatype Option<+T> = None | Some(value: T)

  function Min(a: nat, b: nat): nat {
    if a <= b then a else b
  }

  function Pow256(n: nat): (p: nat)
    ensures p >= 1
  {
    if n == 0 then 1 else 256 * Pow256(n - 1)
  }

  /** The low `n` bytes of `v`, most significant first. */
  function BigEndian(v: nat, n: nat): (bs: seq<byte>)
    ensures |bs| == n
  {
    if n == 0 then [] else BigEndian(v / 256, n - 1) + [v % 256]
  }

  /** The number that `bs` spells, most significant byte first. */
  function Number(bs: seq<byte>): nat {
    if bs == [] then 0 else 256 * Number(bs[..|bs| - 1]) + bs[|bs| - 1]
  }

  lemma {:induction false} NumberOfBigEndian(v: nat, n: nat)
    requires v < Pow256(n)
    ensures Number(BigEndian(v, n)) == v
  {
    if n > 0 {
      NumberOfBigEndian(v / 256, n - 1);
      var bs := BigEndian(v, n);
      assert bs[..n - 1] == BigEndian(v / 256, n - 1);
    }
  }

  lemma {:induction false} BigEndianOfNumber(bs: seq<byte>)
    ensures Number(bs) < Pow256(|bs|)
    ensures BigEndian(Number(bs), |bs|) == bs
  {
    if bs != [] {
      var n := |bs| - 1;
      var high, low := bs[..n], bs[n];
      BigEndianOfNumber(high);
      assert Number(bs) == 256 * Number(high) + low;
      assert Pow256(|bs|) == 256 * Pow256(n);
      BigEndianSnoc(Number(high), low, n);
      assert bs == high + [low];
    }
  }

  lemma BigEndianSnoc(high: nat, low: byte, n: nat)
    ensures BigEndian(256 * high + low, n + 1) == BigEndian(high, n) + [low]
  {
    assert (256 * high + low) / 256 == high && (256 * high + low) % 256 == low;
  }

  /** Appending one byte shifts the number by eight bits. */
  lemma NumberSnoc(bs: seq<byte>, b: byte)
    ensures Number(bs + [b]) == 256 * Number(bs) + b
  {
    assert (bs + [b])[..|bs|] == bs;
  }

  lemma Pow256Values()
    ensures Pow256(0) == 1 && Pow256(1) == 0x100 && Pow256(2) == 0x1_0000
    ensures Pow256(4) == 0x1_0000_0000 && Pow256(8) == 0x1_0000_0000_0000_0000
  {
    assert Pow256(3) == 256 * Pow256(2);
    assert Pow256(4) == 256 * Pow256(3);
    assert Pow256(5) == 256 * Pow256(4);
    assert Pow256(6) == 256 * Pow256(5);
    assert Pow256(7) == 256 * Pow256(6);
  }
}
