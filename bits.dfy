/** Bit-level helpers shared by the register-image model: the power-of-two
    test of the firmware's utility header and the count-trailing-zeros
    builtin of the compiler, both over 64-bit words. Bit indices are kept
    as bit-vectors so that every shift stays in the bit-vector theory. */
module Bits {

  /** Bits [n-1:0] of x are all clear. */
  predicate LowBitsClear(x: bv64, n: bv64)
    requires n <= 64
  {
    x & ((1 << n) - 1) == 0
  }

  /** Bit n of x is set. */
  predicate BitSet(x: bv64, n: bv64)
    requires n < 64
  {
    x & (1 << n) != 0
  }

  /** IS_POWER_OF_TWO as the firmware's utility header writes it:
      x & (x - 1) == 0. As written it also holds of 0. */
  predicate IsPowerOfTwo(x: bv64)
  {
    x & (x - 1) == 0
  }

  /** The index of the lowest set bit of x at or above bit i, or 64 if there is none. */
  function CtzFrom(x: bv64, i: bv64): (r: bv64)
    requires i <= 64
    ensures i <= r <= 64
    decreases 64 - i
  {
    if i == 64 || BitSet(x, i) then i else CtzFrom(x, i + 1)
  }

  lemma ClearOneMore(x: bv64, i: bv64)
    requires i < 64
    requires LowBitsClear(x, i) && !BitSet(x, i)
    ensures LowBitsClear(x, i + 1)
  {
  }

  lemma NonZeroHasSetBit(x: bv64)
    requires x != 0
    ensures !LowBitsClear(x, 64)
  {
  }

  /** Scanning a non-zero word from a point below its lowest set bit stops
      exactly at that bit. */
  lemma {:induction false} CtzFromFindsLowestSetBit(x: bv64, i: bv64)
    requires x != 0 && i <= 64 && LowBitsClear(x, i)
    ensures CtzFrom(x, i) < 64
    ensures LowBitsClear(x, CtzFrom(x, i)) && BitSet(x, CtzFrom(x, i))
    decreases 64 - i
  {
    if i == 64 {
      NonZeroHasSetBit(x);
    } else if !BitSet(x, i) {
      ClearOneMore(x, i);
      CtzFromFindsLowestSetBit(x, i + 1);
    }
  }

  /** __builtin_ctzll: the number of trailing zero bits of a non-zero word,
      that is, the index of its lowest set bit. The builtin is undefined
      for 0, hence the requires. */
  function Ctz(x: bv64): (r: bv64)
    requires x != 0
    ensures r < 64
    ensures LowBitsClear(x, r) && BitSet(x, r)
  {
    CtzFromFindsLowestSetBit(x, 0);
    CtzFrom(x, 0)
  }

  /** A word whose upper half is zero has its lowest set bit in the lower half. */
  lemma CtzOfNarrowWord(x: bv64)
    requires x != 0 && x >> 32 == 0
    ensures Ctz(x) < 32
  {
  }

  lemma OnlyBitOfPower(k: bv64, r: bv64)
    requires k < 64 && r < 64
    requires LowBitsClear(1 << k, r) && BitSet(1 << k, r)
    ensures k == r
  {
  }

  /** Counting the trailing zeros of 2^k gives back k. */
  lemma CtzOfPowerOfTwo(k: bv64)
    requires k < 64
    ensures Ctz(1 << k) == k
  {
    OnlyBitOfPower(k, Ctz(1 << k));
  }

  lemma PowerWithLowestBit(x: bv64, r: bv64)
    requires r < 64 && IsPowerOfTwo(x)
    requires LowBitsClear(x, r) && BitSet(x, r)
    ensures x == 1 << r
  {
  }

  /** A non-zero power of two is 2 raised to its trailing-zero count, so
      Ctz is the base-2 logarithm on powers of two. */
  lemma PowerOfTwoIsTwoToCtz(x: bv64)
    requires x != 0 && IsPowerOfTwo(x)
    ensures x == 1 << Ctz(x)
  {
    PowerWithLowestBit(x, Ctz(x));
  }
}
