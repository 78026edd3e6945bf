/** Unsigned 32-bit arithmetic on naturals, the way src/internal.h and the ring buffers use it:
    bitwise and/or, right shift, masks, and rounding a capacity up to a power of two. */
module Bits {
  const U32: nat := 0x1_0000_0000

  function Pow2(k: nat): (p: nat)
    ensures p >= 1
  {
    if k == 0 then 1 else 2 * Pow2(k - 1)
  }

  ghost predicate IsPow2(n: nat) {
    exists k: nat :: n == Pow2(k)
  }

  /** Bit `i` of `n`. */
  predicate Bit(n: nat, i: nat) {
    if i == 0 then n % 2 == 1 else Bit(n / 2, i - 1)
  }

  function And(a: nat, b: nat): nat {
    if a == 0 || b == 0 then 0
    else 2 * And(a / 2, b / 2) + (if a % 2 == 1 && b % 2 == 1 then 1 else 0)
  }

  function Or(a: nat, b: nat): nat
    decreases a + b
  {
    if a == 0 then b
    else if b == 0 then a
    else 2 * Or(a / 2, b / 2) + (if a % 2 == 1 || b % 2 == 1 then 1 else 0)
  }

  function Shr(n: nat, s: nat): nat {
    if s == 0 then n else Shr(n / 2, s - 1)
  }

  lemma {:induction false} BitOfZero(i: nat)
    ensures !Bit(0, i)
  {
    if i > 0 { BitOfZero(i - 1); }
  }

  lemma {:induction false} BitOfOr(a: nat, b: nat, i: nat)
    ensures Bit(Or(a, b), i) <==> Bit(a, i) || Bit(b, i)
  {
    BitOfZero(i);
    if a != 0 && b != 0 && i > 0 {
      BitOfOr(a / 2, b / 2, i - 1);
    }
  }

  lemma {:induction false} BitOfShr(n: nat, s: nat, i: nat)
    ensures Bit(Shr(n, s), i) <==> Bit(n, i + s)
  {
    if s > 0 { BitOfShr(n / 2, s - 1, i); }
  }

  lemma {:induction false} ShrBound(n: nat, s: nat)
    ensures Shr(n, s) <= n
  {
    if s > 0 { ShrBound(n / 2, s - 1); }
  }

  lemma {:induction false} OrBound(a: nat, b: nat, k: nat)
    requires a < Pow2(k) && b < Pow2(k)
    ensures Or(a, b) < Pow2(k)
  {
    if a != 0 && b != 0 { OrBound(a / 2, b / 2, k - 1); }
  }

  lemma {:induction false} AllOnes(n: nat, k: nat)
    requires n < Pow2(k) && forall i | 0 <= i < k :: Bit(n, i)
    ensures n == Pow2(k) - 1
  {
    if k > 0 {
      assert Bit(n, 0);
      forall i | 0 <= i < k - 1 ensures Bit(n / 2, i) { assert Bit(n, i + 1); }
      AllOnes(n / 2, k - 1);
    }
  }

  lemma {:induction false} Pow2Grows(j: nat, k: nat)
    requires j <= k
    ensures Pow2(j) <= Pow2(k)
  {
    if j < k { Pow2Grows(j, k - 1); }
  }

  lemma {:induction false} Pow2Adds(j: nat, k: nat)
    ensures Pow2(j + k) == Pow2(j) * Pow2(k)
  {
    if j > 0 { Pow2Adds(j - 1, k); }
  }

  lemma Pow2Of32()
    ensures Pow2(31) == 0x8000_0000 && Pow2(32) == U32
  {
    assert Pow2(8) == 256;
    Pow2Adds(8, 8);
    Pow2Adds(16, 8);
    Pow2Adds(24, 7);
    assert Pow2(7) == 128;
  }

  /** The highest set bit: every positive number lies in exactly one band [2^h, 2^(h+1)). */
  function TopBit(n: nat): (h: nat)
    requires n > 0
    ensures Pow2(h) <= n < Pow2(h + 1)
  {
    if n == 1 then 0 else 1 + TopBit(n / 2)
  }

  lemma {:induction false} TopBitIsSet(n: nat, h: nat)
    requires Pow2(h) <= n < Pow2(h + 1)
    ensures Bit(n, h)
  {
    if h > 0 { TopBitIsSet(n / 2, h - 1); }
  }

  /** The `j` bits of `n` from bit `h` downwards are set and none above. */
  ghost predicate TopOnes(n: nat, h: nat, j: nat) {
    n < Pow2(h + 1) && forall i: nat | i <= h < i + j :: Bit(n, i)
  }

  /** One `next |= next >> j` line doubles the run of ones. */
  lemma SmearDoubles(n: nat, h: nat, j: nat)
    requires TopOnes(n, h, j)
    ensures TopOnes(Or(n, Shr(n, j)), h, 2 * j)
  {
    ShrBound(n, j);
    OrBound(n, Shr(n, j), h + 1);
    forall i: nat | i <= h < i + 2 * j ensures Bit(Or(n, Shr(n, j)), i) {
      BitOfOr(n, Shr(n, j), i);
      BitOfShr(n, j, i);
    }
  }

  lemma NextPow2IsLeast(v: nat, h: nat, p: nat)
    requires v > 1 && Pow2(h) <= v - 1 < Pow2(h + 1)
    requires IsPow2(p) && v <= p
    ensures Pow2(h + 1) <= p
  {
    var k: nat :| p == Pow2(k);
    if k <= h { Pow2Grows(k, h); }
    Pow2Grows(h + 1, if k <= h then h + 1 else k);
  }

  /** `next |= next >> j` */
  function Smear(n: nat, j: nat): nat {
    Or(n, Shr(n, j))
  }

  lemma SmearAll(n: nat)
    requires 0 < n < U32
    ensures TopBit(n) <= 31
    ensures Smear(Smear(Smear(Smear(Smear(n, 1), 2), 4), 8), 16) == Pow2(TopBit(n) + 1) - 1
  {
    var h := TopBit(n);
    Pow2Of32();
    if h > 31 { Pow2Grows(32, h); }
    TopBitIsSet(n, h);
    SmearDoubles(n, h, 1);
    var n1 := Smear(n, 1);
    SmearDoubles(n1, h, 2);
    var n2 := Smear(n1, 2);
    SmearDoubles(n2, h, 4);
    var n4 := Smear(n2, 4);
    SmearDoubles(n4, h, 8);
    var n8 := Smear(n4, 8);
    SmearDoubles(n8, h, 16);
    AllOnes(Smear(n8, 16), h + 1);
  }

  lemma SmearZero(j: nat)
    ensures Smear(0, j) == 0
  {
    ShrBound(0, j);
  }

  /** `bio_next_pow2`: the least power of two not below `v`, for every `v` that has one in 32 bits.
      For 0 and for anything above 2^31 the arithmetic wraps and the result is 0. */
  method NextPow2(v: nat) returns (next: nat)
    requires v < U32
    ensures next == 0 <==> (v == 0 || v > 0x8000_0000)
    ensures 1 <= v <= 0x8000_0000 ==> IsPow2(next) && v <= next <= 0x8000_0000
    ensures 1 <= v <= 0x8000_0000 ==> forall p: nat | IsPow2(p) && v <= p :: next <= p
  {
    next := if v == 0 then U32 - 1 else v - 1;
    ghost var start := next;
    next := Or(next, Shr(next, 1));
    next := Or(next, Shr(next, 2));
    next := Or(next, Shr(next, 4));
    next := Or(next, Shr(next, 8));
    next := Or(next, Shr(next, 16));
    assert next == Smear(Smear(Smear(Smear(Smear(start, 1), 2), 4), 8), 16);
    if start == 0 {
      SmearZero(1); SmearZero(2); SmearZero(4); SmearZero(8); SmearZero(16);
      assert next == 0 && IsPow2(1) by { assert Pow2(0) == 1; }
    } else {
      SmearAll(start);
      RoundUp(start);
    }
    next := if next == U32 - 1 then 0 else next + 1;
  }

  /** Adding one to the smeared predecessor gives the next power of two, or 2^32. */
  lemma RoundUp(start: nat)
    requires 0 < start < U32
    ensures var p := Pow2(TopBit(start) + 1);
      && (start < 0x8000_0000 ==> IsPow2(p) && start < p <= 0x8000_0000)
      && (start >= 0x8000_0000 ==> p == U32)
      && forall q: nat | IsPow2(q) && start + 1 <= q :: p <= q
  {
    var h := TopBit(start);
    Pow2Of32();
    if start < 0x8000_0000 {
      if h >= 31 { Pow2Grows(31, h); }
      Pow2Grows(h + 1, 31);
      assert IsPow2(Pow2(h + 1));
    } else {
      if h < 31 { Pow2Grows(h + 1, 31); }
      if h > 31 { Pow2Grows(32, h); }
    }
    forall q: nat | IsPow2(q) && start + 1 <= q ensures Pow2(h + 1) <= q {
      NextPow2IsLeast(start + 1, h, q);
    }
  }

  // ----- wrapping counters -----

  /** The low `k` bits of `x`: the value a `k`-bit counter shows after `x` increments. */
  function Low(x: nat, k: nat): (r: nat)
    ensures r < Pow2(k)
  {
    if k == 0 then 0 else 2 * Low(x / 2, k - 1) + x % 2
  }

  /** `vindex & (capacity - 1)` of src/mailbox.c and src/thread.c. */
  function MaskIndex(vindex: nat, capacity: nat): nat
    requires capacity > 0
  {
    And(vindex, capacity - 1)
  }

  lemma {:induction false} LowIsMask(x: nat, k: nat)
    ensures MaskIndex(x, Pow2(k)) == Low(x, k)
  {
    if x == 0 { LowOfZero(k); }
    else if k > 0 {
      LowIsMask(x / 2, k - 1);
      assert (Pow2(k) - 1) / 2 == Pow2(k - 1) - 1;
    }
  }

  lemma {:induction false} LowOfZero(k: nat)
    ensures Low(0, k) == 0
  {
    if k > 0 { LowOfZero(k - 1); }
  }

  lemma Doubled(low: nat, p: nat, high: nat, bit: nat)
    ensures 2 * (low + p * high) + bit == (2 * low + bit) + (2 * p) * high
  {
    assert (2 * p) * high == 2 * (p * high);
  }

  lemma {:induction false} LowAndHigh(x: nat, k: nat)
    ensures x == Low(x, k) + Pow2(k) * Shr(x, k)
  {
    if k > 0 {
      LowAndHigh(x / 2, k - 1);
      Doubled(Low(x / 2, k - 1), Pow2(k - 1), Shr(x / 2, k - 1), x % 2);
    }
  }

  lemma Remainder32(x: nat, low: nat, high: nat)
    requires x == low + U32 * high && low < U32
    ensures x % U32 == low
  {
  }

  /** A 32-bit counter holds the low 32 bits. */
  lemma LowIsRemainder(x: nat, k: nat)
    requires k == 32
    ensures Low(x, k) == x % U32
  {
    LowAndHigh(x, k);
    Pow2Of32();
    Remainder32(x, Low(x, k), Shr(x, k));
  }

  lemma {:induction false} LowLow(x: nat, k: nat, m: nat)
    requires k <= m
    ensures Low(Low(x, m), k) == Low(x, k)
  {
    if k > 0 { LowLow(x / 2, k - 1, m - 1); }
  }

  /** The index masked out of a wrapped 32-bit ticket is that of the true ticket. */
  lemma WrappedIndex(x: nat, k: nat)
    requires k <= 32
    ensures MaskIndex(x % U32, Pow2(k)) == Low(x, k) < Pow2(k)
  {
    var width := 32;
    LowIsMask(x % U32, k);
    LowIsRemainder(x, width);
    LowLow(x, k, width);
  }

  /** Two tickets less than a ring apart never share a slot. */
  lemma {:induction false} LowDistinct(i: nat, j: nat, k: nat)
    requires i < j < i + Pow2(k)
    ensures Low(i, k) != Low(j, k)
  {
    if k > 0 && i % 2 == j % 2 {
      LowDistinct(i / 2, j / 2, k - 1);
    }
  }
}
