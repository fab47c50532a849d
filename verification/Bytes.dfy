/** Byte strings: exclusive or with a repeating key, and little-endian integers. */
module Bytes {
  type Byte = b: int | 0 <= b < 256

  type Text = seq<Byte>

  function Pow2(n: nat): nat { if n == 0 then 1 else 2 * Pow2(n - 1) }

  /** Exclusive or of two bits. */
  function XorLow(a: nat, k: nat): (x: nat)
    requires a < 2 && k < 2
    ensures x < 2
  {
    if a == k then 0 else 1
  }

  /** Exclusive or of the low `bits` bits. */
  function XorBits(a: nat, k: nat, bits: nat): (x: nat)
    ensures x < Pow2(bits)
  {
    if bits == 0 then 0 else XorLow(a % 2, k % 2) + 2 * XorBits(a / 2, k / 2, bits - 1)
  }

  function Xor(a: Byte, k: Byte): Byte {
    assert Pow2(8) == 256;
    XorBits(a, k, 8)
  }

  lemma {:induction false} XorBitsTwice(a: nat, k: nat, bits: nat)
    requires a < Pow2(bits)
    ensures XorBits(XorBits(a, k, bits), k, bits) == a
  {
    if bits > 0 {
      XorBitsTwice(a / 2, k / 2, bits - 1);
      var low, high := XorLow(a % 2, k % 2), XorBits(a / 2, k / 2, bits - 1);
      Halves(low, high);
      assert XorBits(a, k, bits) == low + 2 * high;
      assert XorBits(low + 2 * high, k, bits) == XorLow(low, k % 2) + 2 * XorBits(high, k / 2, bits - 1);
    }
  }

  lemma Halves(low: nat, high: nat)
    requires low < 2
    ensures (low + 2 * high) % 2 == low && (low + 2 * high) / 2 == high
  {}

  function XorWithKey(data: Text, key: Text): (out: Text)
    requires key != []
    ensures |out| == |data|
  {
    seq(|data|, i requires 0 <= i < |data| => Xor(data[i], key[i % |key|]))
  }

  lemma XorWithKeyTwice(data: Text, key: Text)
    requires key != []
    ensures XorWithKey(XorWithKey(data, key), key) == data
  {
    forall i | 0 <= i < |data|
      ensures Xor(Xor(data[i], key[i % |key|]), key[i % |key|]) == data[i]
    {
      assert Pow2(8) == 256;
      XorBitsTwice(data[i], key[i % |key|], 8);
    }
  }

  /** The bit of weight two to the `i`. */
  function Bit(n: nat, i: nat): nat { if i == 0 then n % 2 else Bit(n / 2, i - 1) }

  lemma {:induction false} XorBitsAre(a: nat, k: nat, bits: nat, i: nat)
    requires i < bits
    ensures Bit(XorBits(a, k, bits), i) == (Bit(a, i) + Bit(k, i)) % 2
  {
    Halves(XorLow(a % 2, k % 2), XorBits(a / 2, k / 2, bits - 1));
    if i > 0 {
      XorBitsAre(a / 2, k / 2, bits - 1, i - 1);
    }
  }

  /** Each bit of each byte is flipped where the key, repeated along the data, has a one. */
  lemma WhitenedBits(data: Text, key: Text, at: nat, i: nat)
    requires key != [] && at < |data| && i < 8
    ensures Bit(XorWithKey(data, key)[at], i) == (Bit(data[at], i) + Bit(key[at % |key|], i)) % 2
  {
    XorBitsAre(data[at], key[at % |key|], 8, i);
  }

  // ---------------------------------------------------------------- little-endian integers

  function Pow256(n: nat): nat { if n == 0 then 1 else 256 * Pow256(n - 1) }

  function Le(n: nat, width: nat): (s: Text)
    ensures |s| == width
  {
    if width == 0 then [] else [n % 256] + Le(n / 256, width - 1)
  }

  function FromLe(s: Text): nat { if s == [] then 0 else s[0] + 256 * FromLe(s[1..]) }

  lemma {:induction false} LeRoundTrip(n: nat, width: nat)
    requires n < Pow256(width)
    ensures FromLe(Le(n, width)) == n
  {
    if width > 0 {
      LeRoundTrip(n / 256, width - 1);
      assert Le(n, width)[1..] == Le(n / 256, width - 1);
    }
  }

  /** The byte of weight 256 to the `i` comes at position `i`. */
  lemma {:induction false} LeDigits(n: nat, width: nat, i: nat)
    requires i < width
    ensures Pow256(i) > 0 && Le(n, width)[i] == n / Pow256(i) % 256
  {
    if i > 0 {
      LeDigits(n / 256, width - 1, i - 1);
      DivideTwice(n, 256, Pow256(i - 1));
    }
  }

  lemma DivideTwice(n: nat, a: nat, b: nat)
    requires a > 0 && b > 0
    ensures a * b > 0 && n / (a * b) == n / a / b
  {
    var q, r := n / a / b, n / a % b;
    assert n / a == q * b + r;
    assert n == (q * b + r) * a + n % a;
    var low := r * a + n % a;
    assert r * a <= (b - 1) * a;
    assert n == q * (a * b) + low && 0 <= low < a * b;
    QuotientIs(n, a * b, q, low);
  }

  lemma QuotientIs(n: nat, d: nat, q: int, r: int)
    requires d > 0 && n == q * d + r && 0 <= r < d
    ensures n / d == q
  {
    var e, rest := n / d, n % d;
    assert n == d * e + rest;
    Difference(e, q, d);
    assert 0 - d < (e - q) * d < d;
    MultipleBetween(e - q, d);
  }

  lemma Difference(e: int, q: int, d: int)
    ensures (e - q) * d == d * e - q * d
  {}

  lemma MultipleBetween(x: int, d: nat)
    requires 0 - d < x * d < d
    ensures x == 0
  {
    if x >= 1 {
      Grows(x, d);
      assert false;
    }
    if x <= -1 {
      Grows(-x, d);
      assert false;
    }
  }

  lemma Grows(x: int, d: nat)
    requires x >= 1
    ensures x * d >= d && (-x) * d <= 0 - d
  {
    assert (x - 1) * d >= 0;
    assert (x - 1) * d == x * d - d;
    assert (-x) * d == 0 - x * d;
  }

  /** Two's complement: a negative integer is stored as itself plus two to the 64. */
  lemma TwosComplement(x: int, n: nat)
    requires -0x8000_0000_0000_0000 <= x < 0x8000_0000_0000_0000 && n < 0x1_0000_0000_0000_0000
    ensures ToU64(x) == if x < 0 then x + 0x1_0000_0000_0000_0000 else x
    ensures ToI64(n) == if n >= 0x8000_0000_0000_0000 then n - 0x1_0000_0000_0000_0000 else n
  {}

  /** Four bytes, the least significant first. */
  function Word(a: int, b: int, c: int, d: int): int { a + 256 * b + 65536 * c + 16777216 * d }

  lemma FourBytes(s: Text)
    requires |s| == 4
    ensures FromLe(s) == Word(s[0], s[1], s[2], s[3])
  {
    assert s[1..][1..] == s[2..] && s[2..][1..] == s[3..] && s[3..][1..] == [];
    assert FromLe(s[3..]) == s[3];
    assert FromLe(s[2..]) == s[2] + 256 * FromLe(s[3..]);
    assert FromLe(s[1..]) == s[1] + 256 * FromLe(s[2..]);
  }

  lemma {:induction false} FromLeBound(s: Text)
    ensures FromLe(s) < Pow256(|s|)
  {
    if s != [] {
      FromLeBound(s[1..]);
    }
  }

  const TWO32: nat := 0x1_0000_0000
  const TWO64: nat := 0x1_0000_0000_0000_0000

  lemma Widths()
    ensures Pow256(4) == TWO32 && Pow256(8) == TWO64
  {}

  /** The unsigned 64-bit reading of a signed 64-bit integer, and back. */
  function ToU64(x: int): (n: nat)
    ensures n < TWO64
  {
    x % TWO64
  }

  function ToI64(n: int): (x: int)
    ensures -0x8000_0000_0000_0000 <= x < 0x8000_0000_0000_0000
  {
    var r := n % TWO64;
    if r < 0x8000_0000_0000_0000 then r else r - TWO64
  }

  predicate IsI64(x: int) { -0x8000_0000_0000_0000 <= x < 0x8000_0000_0000_0000 }

  lemma SignRoundTrip(x: int)
    requires IsI64(x)
    ensures ToI64(ToU64(x)) == x
  {}
}
