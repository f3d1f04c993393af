/**
 * `boot_bound_start_token`: the 64-bit FNV-1a hash of the boot id followed by
 * the start ticks in little-endian bytes. It stands in for a process identity,
 * so what matters is which inputs it provably keeps apart.
 */
module StartToken {
  import opened Basics

  type U64 = x: int | 0 <= x < 0x1_0000_0000_0000_0000

  const OFFSET_BASIS: U64 := 0xcbf2_9ce4_8422_2325

  /** Exclusive or of two numbers of `width` bits. */
  function Xor(width: nat, a: nat, b: nat): (r: nat)
    requires a < Pow2(width) && b < Pow2(width)
    ensures r < Pow2(width)
  {
    if width == 0 then 0 else (a % 2 + b % 2) % 2 + 2 * Xor(width - 1, a / 2, b / 2)
  }

  function Xor8(a: Byte, b: Byte): Byte {
    assert Pow2(8) == 256 by { assert Pow2(4) == 16; }
    Xor(8, a, b)
  }

  /** `hash ^= byte`: only the low eight bits change. */
  function XorByte(hash: U64, byte: Byte): U64 {
    hash / 256 * 256 + Xor8(hash % 256, byte)
  }

  /** `hash.wrapping_mul(prime)`. */
  function TimesPrime(hash: U64): U64 {
    hash * 0x0000_0100_0000_01b3 % 0x1_0000_0000_0000_0000
  }

  /** One round of the loop. */
  function Round(hash: U64, byte: Byte): U64 {
    TimesPrime(XorByte(hash, byte))
  }

  function Hash(hash: U64, bytes: seq<Byte>): U64 {
    if bytes == [] then hash else Round(Hash(hash, bytes[..|bytes| - 1]), bytes[|bytes| - 1])
  }

  /** `u64::to_le_bytes`, lowest byte first. */
  function LittleEndian(n: nat, width: nat): (r: seq<Byte>)
    ensures |r| == width
  {
    if width == 0 then [] else [n % 256] + LittleEndian(n / 256, width - 1)
  }

  function Token(bootId: seq<Byte>, ticks: U64): U64 {
    Hash(OFFSET_BASIS, bootId + LittleEndian(ticks, 8))
  }

  /** The hash loop itself. */
  method BootBoundStartToken(bootId: seq<Byte>, ticks: U64) returns (hash: U64)
    ensures hash == Token(bootId, ticks)
  {
    var bytes := bootId + LittleEndian(ticks, 8);
    hash := OFFSET_BASIS;
    for i := 0 to |bytes|
      invariant hash == Hash(OFFSET_BASIS, bytes[..i])
    {
      hash := XorByte(hash, bytes[i]);
      hash := TimesPrime(hash);
      assert bytes[..i + 1][..i] == bytes[..i];
    }
    assert bytes[..|bytes|] == bytes;
  }

  // ---- every round is injective in the state and in the byte

  lemma {:induction false} XorCancels(width: nat, a: nat, b: nat, x: nat)
    requires a < Pow2(width) && b < Pow2(width) && x < Pow2(width)
    requires Xor(width, a, x) == Xor(width, b, x)
    ensures a == b
  {
    if width > 0 {
      XorStep(width, a, b, x);
      XorCancels(width - 1, a / 2, b / 2, x / 2);
      Halves(a, b);
    }
  }

  lemma XorStep(width: nat, a: nat, b: nat, x: nat)
    requires width > 0 && a < Pow2(width) && b < Pow2(width) && x < Pow2(width)
    requires Xor(width, a, x) == Xor(width, b, x)
    ensures a % 2 == b % 2 && Xor(width - 1, a / 2, x / 2) == Xor(width - 1, b / 2, x / 2)
  {
    LastBit((a % 2 + x % 2) % 2, Xor(width - 1, a / 2, x / 2), (b % 2 + x % 2) % 2, Xor(width - 1, b / 2, x / 2));
  }

  lemma {:induction false} XorCommutes(width: nat, a: nat, b: nat)
    requires a < Pow2(width) && b < Pow2(width)
    ensures Xor(width, a, b) == Xor(width, b, a)
  {
    if width > 0 {
      XorCommutes(width - 1, a / 2, b / 2);
    }
  }

  lemma XorInjective(width: nat, a: nat, b: nat, x: nat, y: nat)
    requires a < Pow2(width) && b < Pow2(width) && x < Pow2(width) && y < Pow2(width)
    requires Xor(width, a, x) == Xor(width, b, y)
    ensures (a == b) == (x == y)
  {
    if x == y {
      XorCancels(width, a, b, x);
    } else if a == b {
      XorCommutes(width, a, x);
      XorCommutes(width, a, y);
      XorCancels(width, x, y, a);
    }
  }

  lemma Halves(a: nat, b: nat)
    ensures a == b <==> a / 2 == b / 2 && a % 2 == b % 2
  {
  }

  lemma LastBit(a: nat, p: int, b: nat, q: int)
    requires a < 2 && b < 2 && a + 2 * p == b + 2 * q
    ensures a == b && p == q
  {
  }

  lemma LastByte(a: int, p: nat, b: int, q: nat)
    requires p < 256 && q < 256 && a * 256 + p == b * 256 + q
    ensures a == b && p == q
  {
  }

  lemma XorByteInjective(a: U64, b: U64, x: Byte, y: Byte)
    requires XorByte(a, x) == XorByte(b, y)
    ensures a / 256 == b / 256
    ensures (a == b) == (x == y)
  {
    assert Pow2(8) == 256 by { assert Pow2(4) == 16; }
    LastByte(a / 256, Xor8(a % 256, x), b / 256, Xor8(b % 256, y));
    XorInjective(8, a % 256, b % 256, x, y);
    assert a == a / 256 * 256 + a % 256 && b == b / 256 * 256 + b % 256;
  }

  /** The odd multiplier has an inverse modulo 2^64, so multiplying loses nothing. */
  lemma TimesPrimeInjective(a: U64, b: U64)
    requires TimesPrime(a) == TimesPrime(b)
    ensures a == b
  {
    var q := a * 0x0000_0100_0000_01b3 / 0x1_0000_0000_0000_0000 - b * 0x0000_0100_0000_01b3 / 0x1_0000_0000_0000_0000;
    assert (a - b) * 0x0000_0100_0000_01b3 == q * 0x1_0000_0000_0000_0000;
    MultiplierInverse(a - b, q);
  }

  lemma MultiplierInverse(d: int, q: int)
    requires -0x1_0000_0000_0000_0000 < d < 0x1_0000_0000_0000_0000
    requires d * 0x0000_0100_0000_01b3 == q * 0x1_0000_0000_0000_0000
    ensures d == 0
  {
    assert 0x0000_0100_0000_01b3 * 0xce96_5057_aff6_957b == 1 + 887285111055 * 0x1_0000_0000_0000_0000;
    assert d + d * 887285111055 * 0x1_0000_0000_0000_0000 == q * 0xce96_5057_aff6_957b * 0x1_0000_0000_0000_0000;
    assert d == (q * 0xce96_5057_aff6_957b - d * 887285111055) * 0x1_0000_0000_0000_0000;
  }

  lemma RoundInjective(a: U64, b: U64, x: Byte, y: Byte)
    requires Round(a, x) == Round(b, y)
    ensures (a == b) == (x == y)
  {
    TimesPrimeInjective(XorByte(a, x), XorByte(b, y));
    XorByteInjective(a, b, x, y);
  }

  // ---- a suffix keeps different states apart; one differing byte is never absorbed

  lemma {:induction false} SuffixInjective(a: U64, b: U64, suffix: seq<Byte>)
    requires Hash(a, suffix) == Hash(b, suffix)
    ensures a == b
  {
    if suffix != [] {
      var front, last := suffix[..|suffix| - 1], suffix[|suffix| - 1];
      RoundInjective(Hash(a, front), Hash(b, front), last, last);
      SuffixInjective(a, b, front);
    }
  }

  lemma {:induction false} HashConcat(hash: U64, a: seq<Byte>, b: seq<Byte>)
    ensures Hash(hash, a + b) == Hash(Hash(hash, a), b)
  {
    if b == [] {
      assert a + b == a;
    } else {
      var front := b[..|b| - 1];
      assert (a + b)[..|a + b| - 1] == a + front;
      HashConcat(hash, a, front);
    }
  }

  /** Two equal-length inputs that differ in exactly one byte have different hashes. */
  lemma OneByteSeparates(hash: U64, prefix: seq<Byte>, x: Byte, y: Byte, suffix: seq<Byte>)
    requires x != y
    ensures Hash(hash, prefix + [x] + suffix) != Hash(hash, prefix + [y] + suffix)
  {
    var h := Hash(hash, prefix);
    HashConcat(hash, prefix + [x], suffix);
    HashConcat(hash, prefix + [y], suffix);
    HashConcat(hash, prefix, [x]);
    HashConcat(hash, prefix, [y]);
    assert Hash(h, [x]) == Round(h, x) && Hash(h, [y]) == Round(h, y);
    if Hash(hash, prefix + [x] + suffix) == Hash(hash, prefix + [y] + suffix) {
      SuffixInjective(Round(h, x), Round(h, y), suffix);
      RoundInjective(h, h, x, y);
    }
  }

  // ---- four rounds from one state

  /** How one round transforms the difference of two states. */
  lemma RoundDifference(a: U64, b: U64, x: Byte, y: Byte) returns (e: int, q: int)
    ensures e == XorByte(a, x) - a - (XorByte(b, y) - b)
    ensures -510 <= e <= 510 && (a == b ==> -255 <= e <= 255)
    ensures Round(a, x) - Round(b, y) == (a - b + e) * 0x100_0000_01b3 + q * 0x1_0000_0000_0000_0000
    ensures a == b && e == 0 ==> x == y
  {
    if a == b && XorByte(a, x) == XorByte(b, y) {
      XorByteInjective(a, b, x, y);
    }
    e := XorByte(a, x) - a - (XorByte(b, y) - b);
    var qa := XorByte(a, x) * 0x0000_0100_0000_01b3 / 0x1_0000_0000_0000_0000;
    var qb := XorByte(b, y) * 0x0000_0100_0000_01b3 / 0x1_0000_0000_0000_0000;
    q := qb - qa;
  }

  /**
   * If the difference after three rounds fits in a byte, nothing was ever
   * different: modulo 2^64 the powers of 2^40 + 435 split the difference into a
   * part below 2^40 and a part above it, and both have to vanish.
   */
  lemma Unmix(d0: int, e1: int, e2: int, d1: int, d2: int, d3: int, q0: int, q1: int, q2: int)
    requires -255 <= d0 <= 255 && -510 <= e1 <= 510 && -510 <= e2 <= 510 && -256 < d3 < 256
    requires d1 == d0 * 0x100_0000_01b3 + q0 * 0x1_0000_0000_0000_0000
    requires d2 == (d1 + e1) * 0x100_0000_01b3 + q1 * 0x1_0000_0000_0000_0000
    requires d3 == (d2 + e2) * 0x100_0000_01b3 + q2 * 0x1_0000_0000_0000_0000
    ensures d0 == e1 == e2 == 0
  {
    var high := 567675 * d0 + 870 * e1 + e2;
    var low := 82312875 * d0 + 189225 * e1 + 435 * e2;
    var carry := q0 * 0x100_0000_01b3 * 0x100_0000_01b3 + q1 * 0x100_0000_01b3 + q2
                 + d0 * (0x100_0000_0000_0000 + 1305 * 0x1_0000) + e1 * 0x1_0000;
    assert d3 == 0x100_0000_0000 * high + low + 0x1_0000_0000_0000_0000 * carry;
    assert d3 - low == 0x100_0000_0000 * (high + 0x100_0000 * carry);
    assert high + 0x100_0000 * carry == 0 && low == d3;
    assert low == 435 * (189225 * d0 + 435 * e1 + e2);
    assert 189225 * d0 + 435 * e1 + e2 == 0;
    assert -2 < d0 < 2;
    assert high == 435 * (870 * d0 + e1);
    assert carry == 0;
  }

  /**
   * Four rounds from a common state keep apart any two different runs of four
   * bytes.
   */
  lemma FourBytesSeparate(h: U64, x0: Byte, x1: Byte, x2: Byte, x3: Byte, y0: Byte, y1: Byte, y2: Byte, y3: Byte)
    requires Round(Round(Round(Round(h, x0), x1), x2), x3) == Round(Round(Round(Round(h, y0), y1), y2), y3)
    ensures x0 == y0 && x1 == y1 && x2 == y2 && x3 == y3
  {
    var a1, b1 := Round(h, x0), Round(h, y0);
    var a2, b2 := Round(a1, x1), Round(b1, y1);
    var a3, b3 := Round(a2, x2), Round(b2, y2);
    TimesPrimeInjective(XorByte(a3, x3), XorByte(b3, y3));
    XorByteInjective(a3, b3, x3, y3);
    ThreeRounds(h, x0, x1, x2, y0, y1, y2);
  }

  lemma SameHigh(a: nat, b: nat)
    requires a / 256 == b / 256
    ensures -256 < a - b < 256
  {
  }

  lemma ThreeRounds(h: U64, x0: Byte, x1: Byte, x2: Byte, y0: Byte, y1: Byte, y2: Byte)
    requires Round(Round(Round(h, x0), x1), x2) / 256 == Round(Round(Round(h, y0), y1), y2) / 256
    ensures x0 == y0 && x1 == y1 && x2 == y2
  {
    var a1, b1 := Round(h, x0), Round(h, y0);
    var a2, b2 := Round(a1, x1), Round(b1, y1);
    var a3, b3 := Round(a2, x2), Round(b2, y2);
    var d1: int, d2: int, d3: int := a1 as int - b1 as int, a2 as int - b2 as int, a3 as int - b3 as int;
    var d0, q0 := RoundDifference(h, h, x0, y0);
    var e1, q1 := RoundDifference(a1, b1, x1, y1);
    var e2, q2 := RoundDifference(a2, b2, x2, y2);
    SameHigh(a3, b3);
    Unmix(d0, e1, e2, d1, d2, d3, q0, q1, q2);
  }

  // ---- tokens

  lemma FirstFour(n: nat, width: nat)
    requires width >= 4
    ensures LittleEndian(n, width) ==
            [n % 256, n / 0x100 % 256, n / 0x1_0000 % 256, n / 0x100_0000 % 256]
            + LittleEndian(n / 0x1_0000_0000, width - 4)
  {
    assert n / 256 / 256 == n / 0x1_0000 && n / 256 / 256 / 256 == n / 0x100_0000
        && n / 256 / 256 / 256 / 256 == n / 0x1_0000_0000;
    var l1 := LittleEndian(n / 0x100, width - 1);
    var l2 := LittleEndian(n / 0x1_0000, width - 2);
    var l3 := LittleEndian(n / 0x100_0000, width - 3);
    assert l3 == [n / 0x100_0000 % 256] + LittleEndian(n / 0x1_0000_0000, width - 4);
    assert l2 == [n / 0x1_0000 % 256] + l3;
    assert l1 == [n / 0x100 % 256] + l2;
  }

  lemma HashFour(h: U64, a: Byte, b: Byte, c: Byte, d: Byte)
    ensures Hash(h, [a, b, c, d]) == Round(Round(Round(Round(h, a), b), c), d)
  {
    assert [a, b, c, d][..3] == [a, b, c] && [a, b, c][..2] == [a, b] && [a, b][..1] == [a] && [a][..0] == [];
    assert Hash(h, [a]) == Round(h, a);
    assert Hash(h, [a, b]) == Round(Hash(h, [a]), b);
    assert Hash(h, [a, b, c]) == Round(Hash(h, [a, b]), c);
  }

  lemma TokenRounds(bootId: seq<Byte>, t: U64)
    ensures Token(bootId, t) ==
            Hash(Round(Round(Round(Round(Hash(OFFSET_BASIS, bootId), t % 256), t / 0x100 % 256), t / 0x1_0000 % 256),
                t / 0x100_0000 % 256),
                 LittleEndian(t / 0x1_0000_0000, 4))
  {
    var h := Hash(OFFSET_BASIS, bootId);
    var low := [t % 256, t / 0x100 % 256, t / 0x1_0000 % 256, t / 0x100_0000 % 256];
    var high := LittleEndian(t / 0x1_0000_0000, 4);
    FirstFour(t, 8);
    HashConcat(OFFSET_BASIS, bootId, low + high);
    HashConcat(h, low, high);
    HashFour(h, low[0], low[1], low[2], low[3]);
  }

  /**
   * Under one boot id, ticks that agree above their low four bytes collide only
   * when they are equal; in particular no two ticks below 2^32 ever collide.
   */
  lemma TicksSeparate(bootId: seq<Byte>, s: U64, t: U64)
    requires s / 0x1_0000_0000 == t / 0x1_0000_0000
    requires Token(bootId, s) == Token(bootId, t)
    ensures s == t
  {
    var h := Hash(OFFSET_BASIS, bootId);
    TokenRounds(bootId, s);
    TokenRounds(bootId, t);
    var a := Round(Round(Round(Round(h, s % 256), s / 0x100 % 256), s / 0x1_0000 % 256), s / 0x100_0000 % 256);
    var b := Round(Round(Round(Round(h, t % 256), t / 0x100 % 256), t / 0x1_0000 % 256), t / 0x100_0000 % 256);
    SuffixInjective(a, b, LittleEndian(s / 0x1_0000_0000, 4));
    FourBytesSeparate(h, s % 256, s / 0x100 % 256, s / 0x1_0000 % 256, s / 0x100_0000 % 256,
                      t % 256, t / 0x100 % 256, t / 0x1_0000 % 256, t / 0x100_0000 % 256);
    Bytes(s);
    Bytes(t);
  }

  lemma Bytes(t: nat)
    ensures t == t % 256 + 0x100 * (t / 0x100 % 256) + 0x1_0000 * (t / 0x1_0000 % 256)
                 + 0x100_0000 * (t / 0x100_0000 % 256) + 0x1_0000_0000 * (t / 0x1_0000_0000)
  {
    var n1, n2, n3, n4 := t / 0x100, t / 0x1_0000, t / 0x100_0000, t / 0x1_0000_0000;
    assert n2 == n1 / 256 && n3 == n2 / 256 && n4 == n3 / 256;
    Digit(t);
    Digit(n1);
    Digit(n2);
    Digit(n3);
  }

  lemma Digit(n: nat)
    ensures n == n % 256 + 256 * (n / 256)
  {
  }
}
