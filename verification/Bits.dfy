/** Shifts and masks of natural numbers, bit by bit, and little-endian bytes. */
module Bits {
  type Byte = x: int | 0 <= x < 256

  function Pow2(k: nat): (r: nat)
    ensures r > 0
  {
    if k == 0 then 1 else 2 * Pow2(k - 1)
  }

  /** n >> k */
  function Shift(n: nat, k: nat): nat {
    if k == 0 then n else Shift(n / 2, k - 1)
  }

  /** n & ((1 << k) - 1) */
  function Low(n: nat, k: nat): (r: nat)
    ensures r < Pow2(k)
  {
    if k == 0 then 0 else n % 2 + 2 * Low(n / 2, k - 1)
  }

  function Bit(n: nat, k: nat): bool { Shift(n, k) % 2 == 1 }

  /** Bits [off, off + bits) of a number. */
  function Slice(n: nat, off: nat, bits: nat): nat { Low(Shift(n, off), bits) }

  /** Shift and Low are the quotient and the remainder by a power of two. */
  lemma ShiftLowIsDivMod(n: nat, k: nat)
    ensures Shift(n, k) == n / Pow2(k) && Low(n, k) == n % Pow2(k)
  {
    Recompose(n, k);
    Divide(n, Pow2(k), Shift(n, k), Low(n, k));
  }

  lemma Recompose(n: nat, k: nat)
    ensures n == Shift(n, k) * Pow2(k) + Low(n, k)
  {
    if k > 0 {
      Recompose(n / 2, k - 1);
      Double(Shift(n, k), Pow2(k - 1));
    }
  }

  lemma Double(a: nat, b: nat)
    ensures a * (2 * b) == 2 * (a * b)
  {}

  lemma DoubleLeft(a: nat, b: nat)
    ensures (2 * a) * b == 2 * (a * b)
  {}

  lemma Divide(x: nat, d: nat, q: nat, r: nat)
    requires r < d && x == q * d + r
    ensures x / d == q && x % d == r
  {
    var e := x / d - q;
    assert (x / d) * d + x % d == x;
    assert e * d == (x / d) * d - q * d;
    if e >= 1 {
      Scale(e, d);
    } else if e <= -1 {
      Scale(-e, d);
    }
  }

  lemma Scale(e: int, d: nat)
    requires e >= 1
    ensures e * d >= d && (-e) * d == -(e * d)
  {}

  lemma ShiftAdd(n: nat, a: nat, b: nat)
    ensures Shift(Shift(n, a), b) == Shift(n, a + b)
  {
    if a > 0 { ShiftAdd(n / 2, a - 1, b); }
  }

  lemma LowGrow(n: nat, b: nat)
    ensures Low(n, b + 1) == Low(n, b) + if Bit(n, b) then Pow2(b) else 0
  {
    if b > 0 { LowGrow(n / 2, b - 1); }
  }

  lemma SliceGrow(n: nat, off: nat, b: nat)
    ensures Slice(n, off, b + 1) == Slice(n, off, b) + if Bit(n, off + b) then Pow2(b) else 0
  {
    LowGrow(Shift(n, off), b);
    ShiftAdd(n, off, b);
  }

  lemma Pow2Mono(a: nat, b: nat)
    requires a <= b
    ensures Pow2(a) <= Pow2(b)
  {
    if a < b { Pow2Mono(a, b - 1); }
  }

  lemma Pow2Values()
    ensures Pow2(8) == 256 && Pow2(16) == 0x1_0000 && Pow2(31) == 0x8000_0000 && Pow2(32) == 0x1_0000_0000
  {
    assert Pow2(4) == 16 && Pow2(8) == 256;
    assert Pow2(12) == 4096 && Pow2(16) == 65536;
    assert Pow2(20) == 0x10_0000 && Pow2(24) == 0x100_0000;
    assert Pow2(28) == 0x1000_0000 && Pow2(31) == 0x8000_0000;
  }

  // --- Little-endian byte strings ---

  function Le(bytes: seq<Byte>): nat {
    if bytes == [] then 0 else bytes[0] + 256 * Le(bytes[1..])
  }

  lemma LeCons(bytes: seq<Byte>, k: nat)
    requires k < |bytes|
    ensures Le(bytes[k..]) == bytes[k] + 256 * Le(bytes[k + 1..])
  {
    assert bytes[k..][1..] == bytes[k + 1..];
  }

  lemma ShiftByte(b: Byte, rest: nat)
    ensures Shift(b + 256 * rest, 8) == rest
    ensures forall r :: 0 <= r < 8 ==> (Bit(b + 256 * rest, r) <==> Bit(b, r))
  {
    HalveByte(b, rest, 8);
  }

  lemma HalveByte(b: nat, rest: nat, k: nat)
    requires b < Pow2(k)
    ensures Shift(b + Pow2(k) * rest, k) == rest
    ensures forall r :: 0 <= r < k ==> (Bit(b + Pow2(k) * rest, r) <==> Bit(b, r))
  {
    if k > 0 {
      var p := Pow2(k - 1) * rest;
      DoubleLeft(Pow2(k - 1), rest);
      HalveByte(b / 2, rest, k - 1);
      assert (b + 2 * p) / 2 == b / 2 + p && (b + 2 * p) % 2 == b % 2;
      forall r | 0 <= r < k
        ensures Bit(b + 2 * p, r) <==> Bit(b, r)
      {
        if r > 0 { assert Bit(b / 2 + p, r - 1) <==> Bit(b / 2, r - 1); }
      }
    }
  }

  lemma LeDrop(bytes: seq<Byte>, k: nat)
    requires k <= |bytes|
    ensures Shift(Le(bytes), 8 * k) == Le(bytes[k..])
  {
    if k == 0 {
      assert bytes[0..] == bytes;
    } else {
      var t := bytes[1..];
      LeDrop(t, k - 1);
      assert t[k - 1..] == bytes[k..];
      SkipByte(bytes[0], Le(t), k);
    }
  }

  lemma SkipByte(b: Byte, rest: nat, k: nat)
    requires k > 0
    ensures Shift(b + 256 * rest, 8 * k) == Shift(rest, 8 * (k - 1))
  {
    ShiftByte(b, rest);
    ShiftAdd(b + 256 * rest, 8, 8 * (k - 1));
  }

  lemma LowByte(b: Byte, rest: nat, j: nat)
    ensures Low(b + 256 * rest, 8 + j) == b + 256 * Low(rest, j)
  {
    LowUnder(b, rest, 8, j);
  }

  lemma LowUnder(b: nat, rest: nat, k: nat, j: nat)
    requires b < Pow2(k)
    ensures Low(b + Pow2(k) * rest, k + j) == b + Pow2(k) * Low(rest, j)
  {
    if k > 0 {
      var p := Pow2(k - 1) * rest;
      DoubleLeft(Pow2(k - 1), rest);
      DoubleLeft(Pow2(k - 1), Low(rest, j));
      LowUnder(b / 2, rest, k - 1, j);
      assert (b + 2 * p) / 2 == b / 2 + p && (b + 2 * p) % 2 == b % 2;
    }
  }

  lemma LeTake(bytes: seq<Byte>, k: nat)
    requires k <= |bytes|
    ensures Low(Le(bytes), 8 * k) == Le(bytes[..k])
  {
    if k > 0 {
      var t := bytes[1..];
      LeTake(t, k - 1);
      assert bytes[..k][1..] == t[..k - 1] && bytes[..k][0] == bytes[0];
      assert Le(bytes) == bytes[0] + 256 * Le(t) && Le(bytes[..k]) == bytes[0] + 256 * Le(t[..k - 1]);
      TakeByte(bytes[0], Le(t), k);
    }
  }

  lemma TakeByte(b: Byte, rest: nat, k: nat)
    requires k > 0
    ensures Low(b + 256 * rest, 8 * k) == b + 256 * Low(rest, 8 * (k - 1))
  {
    LowByte(b, rest, 8 * (k - 1));
  }

  lemma LowOfSmall(n: nat, k: nat)
    requires n < Pow2(k)
    ensures Low(n, k) == n && Shift(n, k) == 0
  {
    if k > 0 { LowOfSmall(n / 2, k - 1); }
  }

  /** The sign bit of a k-bit number. */
  lemma TopBit(n: nat, k: nat)
    requires k > 0 && n < Pow2(k)
    ensures Bit(n, k - 1) <==> n >= Pow2(k - 1)
  {
    if k > 1 { TopBit(n / 2, k - 1); }
  }

  lemma ShiftZero(k: nat)
    ensures Shift(0, k) == 0
  {
    if k > 0 { ShiftZero(k - 1); }
  }

  /** A bit of the number is a bit of one byte; past the end all bits are 0. */
  lemma BitOfByte(bytes: seq<Byte>, k: nat)
    ensures Bit(Le(bytes), k) <==> k / 8 < |bytes| && Bit(bytes[k / 8], k % 8)
  {
    var q, r := k / 8, k % 8;
    if q < |bytes| {
      LeDrop(bytes, q);
      ShiftAdd(Le(bytes), 8 * q, r);
      ShiftByte(bytes[q], Le(bytes[q..][1..]));
    } else {
      var n := |bytes|;
      LeDrop(bytes, n);
      assert bytes[n..] == [];
      ShiftAdd(Le(bytes), 8 * n, k - 8 * n);
      ShiftZero(k - 8 * n);
    }
  }

  /** The first `n` little-endian digits of a number. */
  function Digits(v: nat, n: nat): (r: seq<Byte>)
    ensures |r| == n
  {
    if n == 0 then [] else [v % 256] + Digits(v / 256, n - 1)
  }

  lemma DigitsRoundTrip(v: nat, n: nat)
    requires v < Pow2(8 * n)
    ensures Le(Digits(v, n)) == v
  {
    if n > 0 {
      Pow2Byte(8 * (n - 1));
      DigitsRoundTrip(v / 256, n - 1);
    }
  }

  lemma Pow2Byte(k: nat)
    ensures Pow2(k + 8) == 256 * Pow2(k)
  {
    assert Pow2(k + 1) == 2 * Pow2(k) && Pow2(k + 2) == 2 * Pow2(k + 1);
    assert Pow2(k + 3) == 2 * Pow2(k + 2) && Pow2(k + 4) == 2 * Pow2(k + 3);
    assert Pow2(k + 5) == 2 * Pow2(k + 4) && Pow2(k + 6) == 2 * Pow2(k + 5);
    assert Pow2(k + 7) == 2 * Pow2(k + 6) && Pow2(k + 8) == 2 * Pow2(k + 7);
  }

  // --- Packing ---

  /** n << k */
  function Shl(n: nat, k: nat): nat {
    if k == 0 then n else 2 * Shl(n, k - 1)
  }

  lemma ShlBound(low: nat, n: nat, k: nat, bits: nat)
    requires low < Pow2(k) && n < Pow2(bits)
    ensures low + Shl(n, k) < Pow2(k + bits)
  {
    if k > 0 { ShlBound(low / 2, n, k - 1, bits); }
  }

  /** What is shifted up comes down again. */
  lemma ShiftShl(low: nat, n: nat, k: nat)
    requires low < Pow2(k)
    ensures Shift(low + Shl(n, k), k) == n
  {
    if k > 0 {
      ShiftShl(low / 2, n, k - 1);
      assert (low + Shl(n, k)) / 2 == low / 2 + Shl(n, k - 1);
    }
  }

  lemma ShiftUnder(low: nat, n: nat, k: nat, off: nat)
    requires off <= k
    ensures Shift(low + Shl(n, k), off) == Shift(low, off) + Shl(n, k - off)
  {
    if off > 0 {
      ShiftUnder(low / 2, n, k - 1, off - 1);
      assert (low + Shl(n, k)) / 2 == low / 2 + Shl(n, k - 1);
    }
  }

  lemma LowShl(low: nat, n: nat, k: nat, bits: nat)
    requires bits <= k
    ensures Low(low + Shl(n, k), bits) == Low(low, bits)
  {
    if bits > 0 {
      LowShl(low / 2, n, k - 1, bits - 1);
      assert (low + Shl(n, k)) / 2 == low / 2 + Shl(n, k - 1);
      assert (low + Shl(n, k)) % 2 == low % 2;
    }
  }

  /** Bits below `k` do not notice what is packed at `k`. */
  lemma SliceUnder(low: nat, n: nat, k: nat, off: nat, bits: nat)
    requires off + bits <= k
    ensures Slice(low + Shl(n, k), off, bits) == Slice(low, off, bits)
  {
    ShiftUnder(low, n, k, off);
    LowShl(Shift(low, off), n, k - off, bits);
  }

  lemma SliceAt(low: nat, n: nat, k: nat, bits: nat)
    requires low < Pow2(k) && n < Pow2(bits)
    ensures Slice(low + Shl(n, k), k, bits) == n
  {
    ShiftShl(low, n, k);
    LowOfSmall(n, bits);
  }
}
