/** Uncollected position fees (src/math/fees.rs): a Q64.64 growth delta times
    the position's liquidity, shifted right by 64, computed in 64-bit halves. */
module Fees {
  import opened Numerics

  /** `(growth * liquidity) >> 64` as the source forms it: only the three
      partial products that reach bits 64..127, and the sum cut to 64 bits. */
  function SplitMultiply(growth: u128, liquidity: u128): u64 {
    var aHi := growth / TWO_POW_64;
    var aLo := growth % TWO_POW_64;
    var bHi := liquidity / TWO_POW_64;
    var bLo := liquidity % TWO_POW_64;
    HalvesFit(growth, liquidity);
    var mid := WrappingAdd(WrappingAdd(aHi * bLo, aLo * bHi), (aLo * bLo) / TWO_POW_64);
    mid % TWO_POW_64
  }

  function ComputeAccruedFees(global: u128, checkpoint: u128, liquidity: u128): u64 {
    SplitMultiply(WrappingSub(global, checkpoint), liquidity)
  }

  /** What the split multiplication is meant to compute. */
  function ExactFees(growth: int, liquidity: int): int {
    (growth * liquidity) / TWO_POW_64
  }

  lemma ProductOfHalves(a: int, b: int)
    requires 0 <= a < TWO_POW_64 && 0 <= b < TWO_POW_64
    ensures 0 <= a * b < TWO_POW_128
  {
    ProductBelowSquare(a, b, TWO_POW_64);
  }

  lemma ProductBelowSquare(a: int, b: int, m: int)
    requires 0 <= a < m && 0 <= b < m
    ensures 0 <= a * b < m * m
  {
    assert a * b <= a * m;
    assert a * m < m * m || a == 0;
  }

  /** No partial product of two 64-bit halves leaves the u128 range. */
  lemma HalvesFit(a: u128, b: u128)
    ensures var M := TWO_POW_64;
            && 0 <= (a / M) * (b % M) < TWO_POW_128
            && 0 <= (a % M) * (b / M) < TWO_POW_128
            && 0 <= (a % M) * (b % M) < TWO_POW_128
            && 0 <= (a / M) * (b / M) < TWO_POW_128
            && 0 <= ((a % M) * (b % M)) / M < TWO_POW_128
  {
    ProductOfHalves(a / TWO_POW_64, b % TWO_POW_64);
    ProductOfHalves(a % TWO_POW_64, b / TWO_POW_64);
    ProductOfHalves(a % TWO_POW_64, b % TWO_POW_64);
    ProductOfHalves(a / TWO_POW_64, b / TWO_POW_64);
  }

  /** The same on the halves themselves. */
  lemma LowBitsFromHalves(aHi: int, aLo: int, bHi: int, bLo: int)
    requires 0 <= aHi < TWO_POW_64 && 0 <= aLo < TWO_POW_64 && 0 <= bHi < TWO_POW_64 && 0 <= bLo < TWO_POW_64
    requires 0 <= aHi * bLo < TWO_POW_128 && 0 <= aLo * bHi < TWO_POW_128 && 0 <= (aLo * bLo) / TWO_POW_64 < TWO_POW_128
    ensures WrappingAdd(WrappingAdd(aHi * bLo, aLo * bHi), (aLo * bLo) / TWO_POW_64) % TWO_POW_64
         == (((aHi * TWO_POW_64 + aLo) * (bHi * TWO_POW_64 + bLo)) / TWO_POW_64) % TWO_POW_64
  {
    ProductByHalves(aHi, aLo, bHi, bLo, TWO_POW_64);
    WrappingSumKeepsLowBits(aHi * bLo, aLo * bHi, (aLo * bLo) / TWO_POW_64);
    ModDropsMultiple(aHi * bLo + aLo * bHi + (aLo * bLo) / TWO_POW_64, aHi * bHi, TWO_POW_64);
  }

  lemma SplitMultiplyIsExact(growth: u128, liquidity: u128)
    ensures SplitMultiply(growth, liquidity) == ExactFees(growth, liquidity) % TWO_POW_64
  {
    var aHi, aLo := growth / TWO_POW_64, growth % TWO_POW_64;
    var bHi, bLo := liquidity / TWO_POW_64, liquidity % TWO_POW_64;
    HalvesFit(growth, liquidity);
    var mid: int := WrappingAdd(WrappingAdd(aHi * bLo, aLo * bHi), (aLo * bLo) / TWO_POW_64);
    assert SplitMultiply(growth, liquidity) == mid % TWO_POW_64;
    LowBitsFromHalves(aHi, aLo, bHi, bLo);
    assert growth == aHi * TWO_POW_64 + aLo && liquidity == bHi * TWO_POW_64 + bLo;
  }

  /** Exactness: for every u128 counter pair and liquidity, dropping the high
      partial product and wrapping the sum lose nothing of the low 64 bits of
      floor(((global - checkpoint) mod 2^128) * liquidity / 2^64). */
  lemma AccruedFeesAreExact(global: u128, checkpoint: u128, liquidity: u128)
    ensures ComputeAccruedFees(global, checkpoint, liquidity)
         == ExactFees((global - checkpoint) % TWO_POW_128, liquidity) % TWO_POW_64
  {
    SplitMultiplyIsExact(WrappingSub(global, checkpoint), liquidity);
  }

  /** Two wrapping additions keep the low 64 bits of the true sum. */
  lemma WrappingSumKeepsLowBits(x: u128, y: u128, z: u128)
    ensures WrappingAdd(WrappingAdd(x, y), z) % TWO_POW_64 == (x + y + z) % TWO_POW_64
  {
    var M := TWO_POW_64;
    var k1 := (x + y) / TWO_POW_128;
    var first := WrappingAdd(x, y);
    var k2 := (first + z) / TWO_POW_128;
    var second := WrappingAdd(first, z);
    assert x + y + z == second + ((k1 + k2) * M) * M;
    ModDropsMultiple(second, (k1 + k2) * M, M);
  }

  /** Shifting the full product right by one half-word. */
  lemma ProductByHalves(aHi: int, aLo: int, bHi: int, bLo: int, m: int)
    requires m > 0
    ensures ((aHi * m + aLo) * (bHi * m + bLo)) / m == aHi * bLo + aLo * bHi + (aLo * bLo) / m + (aHi * bHi) * m
  {
    Distribute(aHi, aLo, bHi, bLo, m);
    var z := aLo * bLo;
    var s := aHi * bLo + aLo * bHi;
    var hi := aHi * bHi;
    assert hi * m * m + s * m + z == (s + z / m + hi * m) * m + z % m;
    QuotientIs(hi * m * m + s * m + z, m, s + z / m + hi * m, z % m);
  }

  lemma Distribute(aHi: int, aLo: int, bHi: int, bLo: int, m: int)
    ensures (aHi * m + aLo) * (bHi * m + bLo) == aHi * bHi * m * m + (aHi * bLo + aLo * bHi) * m + aLo * bLo
  {
    var b := bHi * m + bLo;
    assert (aHi * m + aLo) * b == aHi * m * b + aLo * b;
    assert aHi * m * b == aHi * m * (bHi * m) + aHi * m * bLo;
    assert aHi * m * (bHi * m) == aHi * bHi * m * m;
    assert aHi * m * bLo == aHi * bLo * m;
    assert aLo * b == aLo * (bHi * m) + aLo * bLo;
    assert aLo * (bHi * m) == aLo * bHi * m;
    assert (aHi * bLo + aLo * bHi) * m == aHi * bLo * m + aLo * bHi * m;
  }

  // ---------------------------------------------------------------------
  // Collecting an interval in several pieces
  // ---------------------------------------------------------------------

  /** The on-chain counter: a true running total kept modulo 2^128. */
  function Counter(total: int): u128 {
    total % TWO_POW_128
  }

  ghost predicate NonDecreasing(totals: seq<int>) {
    forall i | 0 < i < |totals| :: totals[i - 1] <= totals[i]
  }

  /** Fees collected checkpoint by checkpoint along the given true totals. */
  function PiecewiseFees(totals: seq<int>, liquidity: u128): int {
    if |totals| < 2 then 0
    else
      var n := |totals|;
      PiecewiseFees(totals[..n - 1], liquidity)
      + ComputeAccruedFees(Counter(totals[n - 1]), Counter(totals[n - 2]), liquidity)
  }

  /** Subtracting two counters recovers the true gap when it is below 2^128. */
  lemma CounterGap(earlier: int, later: int)
    requires earlier <= later < earlier + TWO_POW_128
    ensures WrappingSub(Counter(later), Counter(earlier)) == later - earlier
  {
    var M := TWO_POW_128;
    var k := later / M - earlier / M;
    assert later - earlier == Counter(later) - Counter(earlier) + k * M;
    ModDropsMultiple(Counter(later) - Counter(earlier), k, M);
    QuotientIs(later - earlier, M, 0, later - earlier);
  }

  lemma TotalsOrdered(totals: seq<int>, i: nat)
    requires NonDecreasing(totals) && i < |totals|
    ensures totals[0] <= totals[i]
  {
    if i > 0 {
      TotalsOrdered(totals, i - 1);
    }
  }

  lemma ExactFeesMonotone(g: int, h: int, liquidity: nat)
    requires g <= h
    ensures ExactFees(g, liquidity) <= ExactFees(h, liquidity)
  {
    assert h * liquidity == g * liquidity + (h - g) * liquidity;
    FloorOfSum(g * liquidity, (h - g) * liquidity, TWO_POW_64);
  }

  /** Cutting an interval into n pieces: when the interval's own fee fits in 64
      bits, collecting piece by piece never over-pays and under-pays by at most
      n - 1 units, across any wrap of the on-chain counter. */
  lemma {:induction false} CuttingLosesAtMostOnePerCut(totals: seq<int>, liquidity: u128)
    requires |totals| >= 2 && NonDecreasing(totals)
    requires totals[|totals| - 1] < totals[0] + TWO_POW_128
    requires ExactFees(totals[|totals| - 1] - totals[0], liquidity) < TWO_POW_64
    ensures var n := |totals|;
            var whole := ComputeAccruedFees(Counter(totals[n - 1]), Counter(totals[0]), liquidity);
            PiecewiseFees(totals, liquidity) <= whole <= PiecewiseFees(totals, liquidity) + (n - 2)
  {
    var n := |totals|;
    WholeFee(totals, n - 1, liquidity);
    if n == 2 {
      assert PiecewiseFees(totals[..1], liquidity) == 0;
    } else {
      var head := totals[..n - 1];
      TotalsOrdered(totals, n - 2);
      WholeFee(totals, n - 2, liquidity);
      CuttingLosesAtMostOnePerCut(head, liquidity);
      SplitOnce(totals[n - 2] - totals[0], totals[n - 1] - totals[n - 2], liquidity);
      PieceFee(totals[n - 2], totals[n - 1], liquidity);
    }
  }

  /** One more cut costs at most one unit. */
  lemma SplitOnce(g: nat, h: nat, liquidity: nat)
    ensures ExactFees(g, liquidity) + ExactFees(h, liquidity) <= ExactFees(g + h, liquidity)
    ensures ExactFees(g + h, liquidity) <= ExactFees(g, liquidity) + ExactFees(h, liquidity) + 1
    ensures ExactFees(g, liquidity) >= 0
    ensures ExactFees(h, liquidity) <= ExactFees(g + h, liquidity)
  {
    assert (g + h) * liquidity == g * liquidity + h * liquidity;
    assert g * liquidity >= 0;
    FloorOfSum(g * liquidity, h * liquidity, TWO_POW_64);
  }

  lemma PieceFee(earlier: int, later: int, liquidity: u128)
    requires earlier <= later < earlier + TWO_POW_128
    requires ExactFees(later - earlier, liquidity) < TWO_POW_64
    ensures ComputeAccruedFees(Counter(later), Counter(earlier), liquidity) == ExactFees(later - earlier, liquidity)
  {
    CounterGap(earlier, later);
    AccruedFeesAreExact(Counter(later), Counter(earlier), liquidity);
    ExactFeesMonotone(0, later - earlier, liquidity);
    QuotientIs(ExactFees(later - earlier, liquidity), TWO_POW_64, 0, ExactFees(later - earlier, liquidity));
  }

  lemma WholeFee(totals: seq<int>, i: nat, liquidity: u128)
    requires NonDecreasing(totals) && i < |totals|
    requires totals[|totals| - 1] < totals[0] + TWO_POW_128
    requires ExactFees(totals[|totals| - 1] - totals[0], liquidity) < TWO_POW_64
    ensures totals[i] < totals[0] + TWO_POW_128
    ensures ExactFees(totals[i] - totals[0], liquidity) < TWO_POW_64
    ensures ComputeAccruedFees(Counter(totals[i]), Counter(totals[0]), liquidity) == ExactFees(totals[i] - totals[0], liquidity)
  {
    TotalsOrdered(totals, i);
    assert NonDecreasing(totals[i..]);
    TotalsOrdered(totals[i..], |totals| - 1 - i);
    ExactFeesMonotone(totals[i] - totals[0], totals[|totals| - 1] - totals[0], liquidity);
    PieceFee(totals[0], totals[i], liquidity);
  }
}
