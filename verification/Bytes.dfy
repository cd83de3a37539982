/** Fixed-width integers as bytes. */
module Bytes {
  import opened Orders

  const I64_LIMIT: int := 0x8000_0000_0000_0000
  const U64_LIMIT: int := 0x1_0000_0000_0000_0000

  function Pow256(n: nat): (p: int)
    ensures p > 0
  {
    if n == 0 then 1 else 256 * Pow256(n - 1)
  }

  /** `n` in `width` bytes, least significant first. */
  function ToLE(n: int, width: nat): (r: seq<byte>)
    requires n >= 0
    ensures |r| == width
  {
    if width == 0 then [] else [n % 256] + ToLE(n / 256, width - 1)
  }

  function FromLE(bytes: seq<byte>): (n: int)
    ensures n >= 0
  {
    if bytes == [] then 0 else bytes[0] + 256 * FromLE(bytes[1..])
  }

  lemma {:induction false} LittleEndianRoundTrip(n: int, width: nat)
    requires 0 <= n < Pow256(width)
    ensures FromLE(ToLE(n, width)) == n
  {
    if width > 0 {
      assert n / 256 < Pow256(width - 1);
      LittleEndianRoundTrip(n / 256, width - 1);
      assert ToLE(n, width)[1..] == ToLE(n / 256, width - 1);
    }
  }

  lemma {:induction false} BytesRoundTrip(bytes: seq<byte>)
    ensures FromLE(bytes) < Pow256(|bytes|) && ToLE(FromLE(bytes), |bytes|) == bytes
  {
    if bytes != [] {
      BytesRoundTrip(bytes[1..]);
      var n, rest := FromLE(bytes), FromLE(bytes[1..]);
      assert n == bytes[0] + 256 * rest && n % 256 == bytes[0] && n / 256 == rest;
      assert bytes == [bytes[0]] + bytes[1..];
    }
  }

  /** Byte `i` holds the digit of weight 256 to the `i`. */
  lemma {:induction false} LittleEndianDigit(n: int, width: nat, i: nat)
    requires n >= 0 && i < width
    ensures ToLE(n, width)[i] == n / Pow256(i) % 256
  {
    if i > 0 {
      LittleEndianDigit(n / 256, width - 1, i - 1);
      DivideTwice(n, 256, Pow256(i - 1));
    }
  }

  lemma DivideTwice(n: int, a: int, b: int)
    requires n >= 0 && a > 0 && b > 0
    ensures a * b > 0 && n / a / b == n / (a * b)
  {
    var q := n / a;
    var r, q', r' := n % a, q / b, q % b;
    assert n == a * q + r && q == b * q' + r';
    assert n == (a * b) * q' + (a * r' + r) by { Distribute(a, b, q', r'); }
    assert 0 <= a * r' + r < a * b by {
      assert a * r' <= a * (b - 1) by { ScaleUp(a, r', b - 1); }
      assert a * r' >= 0 by { ScaleUp(a, 0, r'); }
      assert a * (b - 1) == a * b - a;
    }
    assert a * b > 0 by { ScaleUp(a, 1, b); }
    QuotientIs(n, a * b, q', a * r' + r);
  }

  lemma Distribute(a: int, b: int, q: int, r: int)
    ensures a * (b * q + r) == (a * b) * q + a * r
  {
  }

  lemma ScaleUp(a: int, x: int, y: int)
    requires a >= 0 && x <= y
    ensures a * x <= a * y
  {
  }

  lemma QuotientIs(n: int, d: int, q: int, r: int)
    requires d > 0 && n == d * q + r && 0 <= r < d
    ensures n / d == q
  {
    var k := n / d - q;
    assert n == d * (n / d) + n % d;
    assert d * k == r - n % d;
    if k > 0 { ScaleUp(d, 1, k); }
    if k < 0 { ScaleUp(d, k, -1); }
  }

  lemma EightBytes()
    ensures Pow256(8) == U64_LIMIT
  {
    assert Pow256(1) == 256;
    assert Pow256(2) == 0x1_0000;
    assert Pow256(3) == 0x100_0000;
    assert Pow256(4) == 0x1_0000_0000;
    assert Pow256(5) == 0x100_0000_0000;
    assert Pow256(6) == 0x1_0000_0000_0000;
    assert Pow256(7) == 0x100_0000_0000_0000;
  }

  /** `n` in `width` bytes, most significant first. */
  function ToBE(n: int, width: nat): (r: seq<byte>)
    requires n >= 0
    ensures |r| == width
  {
    if width == 0 then [] else ToBE(n / 256, width - 1) + [n % 256]
  }

  function FromBE(bytes: seq<byte>): (n: int)
    ensures n >= 0
  {
    if bytes == [] then 0 else 256 * FromBE(bytes[..|bytes| - 1]) + bytes[|bytes| - 1]
  }

  lemma {:induction false} BigEndianRoundTrip(n: int, width: nat)
    requires 0 <= n < Pow256(width)
    ensures FromBE(ToBE(n, width)) == n
  {
    if width > 0 {
      assert n / 256 < Pow256(width - 1);
      BigEndianRoundTrip(n / 256, width - 1);
      assert ToBE(n, width)[..width - 1] == ToBE(n / 256, width - 1);
    }
  }

  /** The last byte holds the lowest digit. */
  lemma {:induction false} BigEndianDigit(n: int, width: nat, i: nat)
    requires n >= 0 && i < width
    ensures ToBE(n, width)[width - 1 - i] == n / Pow256(i) % 256
  {
    if i > 0 {
      BigEndianDigit(n / 256, width - 1, i - 1);
      DivideTwice(n, 256, Pow256(i - 1));
    }
  }

  lemma {:induction false} BigEndianBound(bytes: seq<byte>)
    ensures FromBE(bytes) < Pow256(|bytes|)
  {
    if bytes != [] { BigEndianBound(bytes[..|bytes| - 1]); }
  }

  // ----- signed 64-bit integers

  type I64 = n: int | -I64_LIMIT <= n < I64_LIMIT

  /** Two's complement. */
  function ToUnsigned(n: I64): (u: int)
    ensures 0 <= u < U64_LIMIT
  {
    if n >= 0 then n else n + U64_LIMIT
  }

  function ToSigned(u: int): I64
    requires 0 <= u < U64_LIMIT
  {
    if u < I64_LIMIT then u else u - U64_LIMIT
  }

  /** Reduce to 64 bits, as wrapping arithmetic does. */
  function Wrap(x: int): I64 {
    ToSigned(x % U64_LIMIT)
  }

  lemma WrapFits(x: int)
    ensures Wrap(x) == x <==> -I64_LIMIT <= x < I64_LIMIT
    ensures (Wrap(x) - x) % U64_LIMIT == 0
  {
    var q := x / U64_LIMIT;
    assert x == q * U64_LIMIT + x % U64_LIMIT;
  }
}
