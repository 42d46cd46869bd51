/** Fixed-width unsigned integers and their little-endian byte encoding,
    as Rust's `u128::to_le_bytes` and `u128::from_le_bytes` define them. */
module Bytes {

  type byte = x: int | 0 <= x < 256

  /** 2^128, one more than the largest `u128`. */
  const U128_LIMIT: nat := 0x1_0000_0000_0000_0000_0000_0000_0000_0000

  type u128 = x: int | 0 <= x < 0x1_0000_0000_0000_0000_0000_0000_0000_0000

  /** The number of values `n` bytes can hold: 256^n. */
  function Pow256(n: nat): (p: nat)
    ensures p >= 1
  {
    if n == 0 then 1 else 256 * Pow256(n - 1)
  }

  lemma Pow256Sixteen()
    ensures Pow256(16) == U128_LIMIT
  {
    assert Pow256(1) == 0x100;
    assert Pow256(2) == 0x10000;
    assert Pow256(3) == 0x1000000;
    assert Pow256(4) == 0x100000000;
    assert Pow256(5) == 0x10000000000;
    assert Pow256(6) == 0x1000000000000;
    assert Pow256(7) == 0x100000000000000;
    assert Pow256(8) == 0x10000000000000000;
    assert Pow256(9) == 0x1000000000000000000;
    assert Pow256(10) == 0x100000000000000000000;
    assert Pow256(11) == 0x10000000000000000000000;
    assert Pow256(12) == 0x1000000000000000000000000;
    assert Pow256(13) == 0x100000000000000000000000000;
    assert Pow256(14) == 0x10000000000000000000000000000;
    assert Pow256(15) == 0x1000000000000000000000000000000;
    assert Pow256(16) == 0x100000000000000000000000000000000;
  }

  /** The low `n` bytes of `x`, least significant first. */
  function LeBytes(x: nat, n: nat): (r: seq<byte>)
    ensures |r| == n
  {
    if n == 0 then [] else [x % 256] + LeBytes(x / 256, n - 1)
  }

  /** The value of a little-endian byte string. */
  function FromLe(bs: seq<byte>): (v: nat)
    ensures v < Pow256(|bs|)
  {
    if bs == [] then 0
    else
      var rest := FromLe(bs[1..]);
      assert rest <= Pow256(|bs| - 1) - 1;
      assert 256 * rest <= 256 * Pow256(|bs| - 1) - 256;
      bs[0] + 256 * rest
  }

  /** Decoding the `n`-byte encoding of a value that fits in `n` bytes gives it back. */
  lemma {:induction false} FromLeOfLeBytes(x: nat, n: nat)
    requires x < Pow256(n)
    ensures FromLe(LeBytes(x, n)) == x
  {
    if n > 0 {
      assert x / 256 < Pow256(n - 1);
      FromLeOfLeBytes(x / 256, n - 1);
      var r := LeBytes(x, n);
      assert r[1..] == LeBytes(x / 256, n - 1);
    }
  }

  /** Encoding the value of a byte string at its own width gives the string back. */
  lemma {:induction false} LeBytesOfFromLe(bs: seq<byte>)
    ensures LeBytes(FromLe(bs), |bs|) == bs
  {
    if bs != [] {
      LeBytesOfFromLe(bs[1..]);
      var v := FromLe(bs);
      assert v % 256 == bs[0];
      assert v / 256 == FromLe(bs[1..]);
      assert LeBytes(v, |bs|) == [bs[0]] + bs[1..];
    }
  }

  /** `x.to_le_bytes()` for `x: u128`: sixteen bytes that decode back to `x`. */
  function ToLe16(x: u128): (r: seq<byte>)
    ensures |r| == 16 && FromLe(r) == x
  {
    Pow256Sixteen();
    FromLeOfLeBytes(x, 16);
    LeBytes(x, 16)
  }

  /** `u128::from_le_bytes`: the value whose encoding is exactly `bs`. */
  function FromLe16(bs: seq<byte>): (x: u128)
    requires |bs| == 16
    ensures ToLe16(x) == bs
  {
    Pow256Sixteen();
    LeBytesOfFromLe(bs);
    FromLe(bs)
  }

  /** Distinct `u128` values have distinct encodings. */
  lemma ToLe16Injective(x: u128, y: u128)
    ensures ToLe16(x) == ToLe16(y) ==> x == y
  {
  }
}
