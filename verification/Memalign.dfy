/** Alignment rounding of `adaptive_memalign` (src/adaptive_allocator.cpp), on
    64-bit words. */
module Memalign {

  predicate PowerOfTwo(x: bv64) {
    x != 0 && x & (x - 1) == 0
  }

  /** `m` is all ones from the highest set bit of `y` down. */
  predicate MaskOf(m: bv64, y: bv64) {
    m & (m + 1) == 0 && y <= m && m >> 1 < y
  }

  /** `p` is the first power of two above `y`, wrapped to zero when it is 2^64. */
  predicate NextPower(p: bv64, y: bv64) {
    p & (p - 1) == 0 && (p - 1) >> 1 < y <= p - 1
  }

  function Fold(x: bv64, n: bv64): bv64
    requires n < 64
  {
    x | (x >> n)
  }

  function Smear(x: bv64): bv64 {
    Fold(Fold(Fold(Fold(Fold(Fold(x, 1), 2), 4), 8), 16), 32)
  }

  lemma SmearIsOnes(x: bv64)
    ensures Smear(x) & (Smear(x) + 1) == 0
  {
  }

  lemma SmearGrows(x: bv64)
    ensures x <= Smear(x)
  {
  }

  lemma SmearKeepsTopBit(x: bv64)
    requires x != 0
    ensures Smear(x) >> 1 < x
  {
  }

  lemma SmearIsMask(x: bv64)
    requires x != 0
    ensures MaskOf(Smear(x), x)
  {
    SmearIsOnes(x);
    SmearGrows(x);
    SmearKeepsTopBit(x);
  }

  lemma MaskPlusOne(y: bv64, m: bv64)
    requires MaskOf(m, y)
    ensures NextPower(m + 1, y)
  {
  }

  lemma OwnPower(p: bv64)
    requires p > 1 && p & (p - 1) == 0
    ensures NextPower(p, p - 1)
  {
  }

  /** `NextPower` pins the value down: it is a power of two above `y`, no other one is
      smaller, and zero stands for "none". */
  lemma NextPowerIsLeast(p: bv64, y: bv64, q: bv64)
    requires NextPower(p, y) && PowerOfTwo(q) && y < q
    ensures PowerOfTwo(p) && y < p <= q
  {
  }

  lemma NoPowerAbove(y: bv64)
    requires NextPower(0, y)
    ensures y >= 0x8000_0000_0000_0000
  {
  }

  /** The shift-and-or statements and the final increment. */
  method PowerAbove(y: bv64) returns (p: bv64)
    requires y != 0
    ensures NextPower(p, y)
  {
    p := y;
    p := Fold(p, 1);
    p := Fold(p, 2);
    p := Fold(p, 4);
    p := Fold(p, 8);
    p := Fold(p, 16);
    p := Fold(p, 32);
    SmearIsMask(y);
    MaskPlusOne(y, p);
    p := p + 1;
  }

  /** Rounds an alignment above 16 up to the least power of two that is not below
      it; a result of zero is the failure branch. */
  method RoundAlignment(requested: bv64) returns (alignment: bv64)
    requires requested > 16
    ensures NextPower(alignment, requested - 1)
  {
    alignment := requested;
    if alignment & (alignment - 1) != 0 {
      alignment := alignment - 1;
      alignment := PowerAbove(alignment);
    } else {
      OwnPower(alignment);
    }
  }

  predicate NotBelow(q: bv64, x: bv64) {
    x <= q
  }

  lemma Predecessor(x: bv64)
    requires x != 0
    ensures x - 1 < x && x - 1 + 1 == x
  {
  }

  lemma BelowToo(x: bv64, q: bv64)
    requires x != 0 && NotBelow(q, x)
    ensures x - 1 < q
  {
    Predecessor(x);
  }

  lemma NextPowerIsPower(p: bv64, y: bv64)
    requires NextPower(p, y) && p != 0
    ensures PowerOfTwo(p) && NotBelow(p, y + 1)
  {
  }

  lemma StillAbove(x: bv64, p: bv64)
    requires 16 < x && NotBelow(p, x)
    ensures 16 < p
  {
  }

  /** What the rounding gives, when it does not fail: the least power of two not below the
      request. */
  lemma RoundedIsLeast(requested: bv64, p: bv64)
    requires requested > 16 && NextPower(p, requested - 1) && p != 0
    ensures PowerOfTwo(p) && NotBelow(p, requested) && 16 < p
    ensures forall q: bv64 :: PowerOfTwo(q) && NotBelow(q, requested) ==> NotBelow(q, p)
  {
    hide NextPower, PowerOfTwo, NotBelow;
    Predecessor(requested);
    NextPowerIsPower(p, requested - 1);
    StillAbove(requested, p);
    forall q: bv64 | PowerOfTwo(q) && NotBelow(q, requested) ensures NotBelow(q, p) {
      LeastBelow(requested, p, q);
    }
  }

  lemma LeastBelow(requested: bv64, p: bv64, q: bv64)
    requires requested != 0 && NextPower(p, requested - 1) && PowerOfTwo(q) && NotBelow(q, requested)
    ensures NotBelow(q, p)
  {
    hide NextPower, PowerOfTwo;
    BelowToo(requested, q);
    NextPowerIsLeast(p, requested - 1, q);
  }

  /** The same order on words and on numbers. */
  lemma AboveSixteen(p: bv64)
    requires p > 16
    ensures p as nat > 16
  {
  }
}
