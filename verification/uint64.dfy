/**
 * Fixed-width integers as the keeper sees them: Go's uint64 and int64, the
 * wrap-around of `n++` on a uint64, the `uint64(...)` conversion of a signed
 * block height, and the 8-byte big-endian encoding of a uint64 that the
 * ordered-channel cleanup proof is checked against.
 */
module Uint64 {

  const TWO_TO_THE_64: int := 0x1_0000_0000_0000_0000
  const UINT64_MAX: int := 0xFFFF_FFFF_FFFF_FFFF

  type byte = b: int | 0 <= b < 256
  type uint64 = n: int | 0 <= n < 0x1_0000_0000_0000_0000
  type int64 = n: int | -0x8000_0000_0000_0000 <= n < 0x8000_0000_0000_0000

  /** Go's `n++` on a uint64: one more, except that the largest value wraps to zero. */
  function WrappingIncrement(n: uint64): (r: uint64)
    ensures n < UINT64_MAX ==> r == n + 1
    ensures n == UINT64_MAX ==> r == 0
    ensures r != n
  {
    (n + 1) % TWO_TO_THE_64
  }

  /** `k` applications of WrappingIncrement to `n`, in closed form. */
  function AddWrapping(n: uint64, k: nat): uint64
  {
    (n + k) % TWO_TO_THE_64
  }

  lemma ModShift(x: int, q: int)
    ensures (x + q * TWO_TO_THE_64) % TWO_TO_THE_64 == x % TWO_TO_THE_64
  {
    var r := x % TWO_TO_THE_64;
    var d := x / TWO_TO_THE_64;
    assert x == d * TWO_TO_THE_64 + r;
    assert x + q * TWO_TO_THE_64 == (d + q) * TWO_TO_THE_64 + r;
  }

  /** Incrementing once and then `k` times is incrementing `k + 1` times. */
  lemma {:induction false} AddAfterIncrement(n: uint64, k: nat)
    ensures AddWrapping(WrappingIncrement(n), k) == AddWrapping(n, k + 1)
  {
    var q := (n + 1) / TWO_TO_THE_64;
    assert n + 1 == q * TWO_TO_THE_64 + (n + 1) % TWO_TO_THE_64;
    ModShift((n + 1) % TWO_TO_THE_64 + k, q);
  }

  /** Fewer than 2^64 increments never come back to the starting value. */
  lemma {:induction false} AddWrappingDistinct(n: uint64, i: nat, j: nat)
    requires i < j < i + TWO_TO_THE_64
    ensures AddWrapping(n, i) != AddWrapping(n, j)
  {
    var a, b := n + i, n + j;
    var qa, qb := a / TWO_TO_THE_64, b / TWO_TO_THE_64;
    assert a == qa * TWO_TO_THE_64 + a % TWO_TO_THE_64;
    assert b == qb * TWO_TO_THE_64 + b % TWO_TO_THE_64;
    assert qa <= qb <= qa + 1;
  }

  /** Go's `uint64(h)` for an int64 `h`: the same two's-complement bits read unsigned. */
  function AsUint64(h: int64): (r: uint64)
    ensures 0 <= h ==> r == h
    ensures h < 0 ==> r == h + TWO_TO_THE_64
  {
    h % TWO_TO_THE_64
  }

  function Pow256(k: nat): (r: nat)
    ensures r > 0
  {
    if k == 0 then 1 else 256 * Pow256(k - 1)
  }

  /** The low `width` bytes of `n`, most significant first. */
  function ToBigEndian(n: nat, width: nat): (r: seq<byte>)
    ensures |r| == width
  {
    if width == 0 then [] else ToBigEndian(n / 256, width - 1) + [n % 256]
  }

  /** The number a big-endian byte string denotes; it fits in as many bytes as it has. */
  function FromBigEndian(b: seq<byte>): (n: nat)
    ensures n < Pow256(|b|)
  {
    if b == [] then 0
    else
      var high := FromBigEndian(b[..|b| - 1]);
      assert high * 256 <= (Pow256(|b| - 1) - 1) * 256;
      high * 256 + b[|b| - 1]
  }

  /** Encoding a number that fits and decoding it gives the number back. */
  lemma {:induction false} FromToBigEndian(n: nat, width: nat)
    requires n < Pow256(width)
    ensures FromBigEndian(ToBigEndian(n, width)) == n
  {
    if width > 0 {
      var b := ToBigEndian(n, width);
      assert n / 256 < Pow256(width - 1);
      FromToBigEndian(n / 256, width - 1);
      assert b[..width - 1] == ToBigEndian(n / 256, width - 1);
      assert b[width - 1] == n % 256;
    }
  }

  /** Decoding a byte string and encoding it at the same width gives the bytes back. */
  lemma {:induction false} ToFromBigEndian(b: seq<byte>)
    ensures ToBigEndian(FromBigEndian(b), |b|) == b
  {
    if b != [] {
      var init, last := b[..|b| - 1], b[|b| - 1];
      var high := FromBigEndian(init);
      ToFromBigEndian(init);
      assert (high * 256 + last) / 256 == high;
      assert (high * 256 + last) % 256 == last;
      assert b == init + [last];
    }
  }

  lemma Pow256Eight()
    ensures Pow256(8) == TWO_TO_THE_64
  {
    assert Pow256(1) == 0x100;
    assert Pow256(2) == 0x1_0000;
    assert Pow256(3) == 0x100_0000;
    assert Pow256(4) == 0x1_0000_0000;
    assert Pow256(5) == 0x100_0000_0000;
    assert Pow256(6) == 0x1_0000_0000_0000;
    assert Pow256(7) == 0x100_0000_0000_0000;
  }

  /** sdk.Uint64ToBigEndian: the eight bytes of `n`, most significant first. */
  function Uint64ToBigEndian(n: uint64): (r: seq<byte>)
    ensures |r| == 8
    ensures FromBigEndian(r) == n
  {
    Pow256Eight();
    FromToBigEndian(n, 8);
    ToBigEndian(n, 8)
  }

  /** Distinct counters have distinct encodings, so a proof of one value is never a proof of another. */
  lemma Uint64ToBigEndianInjective(a: uint64, b: uint64)
    requires Uint64ToBigEndian(a) == Uint64ToBigEndian(b)
    ensures a == b
  {
  }
}
