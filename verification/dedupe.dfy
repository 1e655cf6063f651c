/** Near-duplicate clustering, packages/chunking/src/dedupe.ts. Fingerprints are given. */
module Dedupe {

  // ---------- Hamming distance ----------

  function LowBit(x: bv64): nat { if x & 1 == 1 then 1 else 0 }

  /** The number of set bits. */
  function BitCount(x: bv64): nat
    decreases x
  {
    if x == 0 then 0
    else
      ShiftShrinks(x);
      LowBit(x) + BitCount(x >> 1)
  }

  function Distance(a: bv64, b: bv64): nat { BitCount(a ^ b) }

  lemma {:induction false} ShiftShrinks(x: bv64)
    requires x != 0
    ensures x >> 1 < x
  {
  }

  method HammingDistance(a: bv64, b: bv64) returns (count: nat)
    ensures count == Distance(a, b)
  {
    var xor := a ^ b;
    count := 0;
    while xor != 0
      invariant count + BitCount(xor) == Distance(a, b)
      decreases xor
    {
      ShiftShrinks(xor);
      count := count + LowBit(xor);
      xor := xor >> 1;
    }
  }

  lemma {:induction false} XorLow(x: bv64, y: bv64)
    ensures LowBit(x ^ y) <= LowBit(x) + LowBit(y)
  {
  }

  lemma {:induction false} XorShift(x: bv64, y: bv64)
    ensures (x ^ y) >> 1 == (x >> 1) ^ (y >> 1)
    ensures (x | y) >> 1 == (x >> 1) | (y >> 1)
  {
  }

  lemma {:induction false} OrZero(x: bv64, y: bv64)
    requires x | y == 0
    ensures x == 0 && y == 0 && x ^ y == 0
  {
  }

  lemma {:induction false} CountStep(x: bv64)
    ensures BitCount(x) == LowBit(x) + BitCount(x >> 1)
  {
    if x == 0 { ZeroBits(); }
  }

  lemma {:induction false} ZeroBits()
    ensures (0 as bv64) >> 1 == 0 && LowBit(0) == 0
  {
  }

  lemma {:induction false} XorCount(x: bv64, y: bv64)
    ensures BitCount(x ^ y) <= BitCount(x) + BitCount(y)
    decreases x | y
  {
    hide LowBit, BitCount;
    if x | y == 0 {
      OrZero(x, y);
    } else {
      ShiftShrinks(x | y);
      XorShift(x, y);
      XorCount(x >> 1, y >> 1);
      XorLow(x, y);
      CountStep(x);
      CountStep(y);
      CountStep(x ^ y);
    }
  }

  lemma {:induction false} NoLowBit(x: bv64)
    requires x >> 1 == 0 && LowBit(x) == 0
    ensures x == 0
  {
  }

  lemma {:induction false} NoBits(x: bv64)
    ensures BitCount(x) == 0 <==> x == 0
    decreases x
  {
    if x == 0 {
    } else {
      ShiftShrinks(x);
      NoBits(x >> 1);
      if BitCount(x) == 0 { NoLowBit(x); }
    }
  }

  lemma {:induction false} XorZero(a: bv64, b: bv64)
    ensures a ^ b == 0 <==> a == b
  {
  }

  lemma {:induction false} XorSwaps(a: bv64, b: bv64)
    ensures a ^ b == b ^ a
  {
  }

  lemma {:induction false} XorBetween(a: bv64, b: bv64, c: bv64)
    ensures (a ^ b) ^ (b ^ c) == a ^ c
  {
  }

  lemma {:induction false} ZeroForEqual(a: bv64, b: bv64)
    ensures Distance(a, b) == 0 <==> a == b
  {
    hide BitCount;
    XorZero(a, b);
    NoBits(a ^ b);
  }

  lemma {:induction false} Symmetric(a: bv64, b: bv64)
    ensures Distance(a, b) == Distance(b, a)
  {
    hide BitCount;
    XorSwaps(a, b);
  }

  lemma {:induction false} Triangle(a: bv64, b: bv64, c: bv64)
    ensures Distance(a, c) <= Distance(a, b) + Distance(b, c)
  {
    hide BitCount;
    XorBetween(a, b, c);
    XorCount(a ^ b, b ^ c);
  }

  /** Hamming distance is a metric. */
  lemma {:induction false} DistanceIsMetric(a: bv64, b: bv64, c: bv64)
    ensures Distance(a, b) == 0 <==> a == b
    ensures Distance(a, b) == Distance(b, a)
    ensures Distance(a, c) <= Distance(a, b) + Distance(b, c)
  {
    hide Distance;
    ZeroForEqual(a, b);
    Symmetric(a, b);
    Triangle(a, b, c);
  }

  lemma {:induction false} LowXor(a: bv64, b: bv64)
    ensures LowBit(a ^ b) == if a & 1 == b & 1 then 0 else 1
  {
  }

  /** The distance is the number of places where the bits differ: the last place, and those before it. */
  lemma {:induction false} DistanceCounts(a: bv64, b: bv64)
    ensures Distance(0, 0) == 0
    ensures Distance(a, b) == (if a & 1 == b & 1 then 0 else 1) + Distance(a >> 1, b >> 1)
  {
    hide BitCount, LowBit;
    ZeroForEqual(0, 0);
    XorShift(a, b);
    CountStep(a ^ b);
    LowXor(a, b);
  }
}
