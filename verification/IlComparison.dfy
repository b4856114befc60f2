/** Concentrated against full-range IL: exactly when the concentrated loss is the
    deeper one, for every entry and every price (src/math/il.rs:44-48). */
module IlComparison {
  import opened Numerics
  import opened ImpermanentLoss

  /** The condition without divisions: v is the position's value, h that of
      holding, q the root of the price ratio. */
  predicate AtLeastAsDeep(v: real, h: real, q: real) {
    v * (1.0 + q * q) <= 2.0 * q * h
  }

  lemma RatioAgainstFullRange(v: real, h: real, q: real)
    requires h > 0.0 && q >= 0.0
    ensures v / h - 1.0 <= FullRangeIl(q) <==> AtLeastAsDeep(v, h, q)
  {
    ProductOfNonNegatives(q, q);
    RatioOrder(v, h, 2.0 * q, 1.0 + q * q);
  }

  /** Where the clamped root of a price beyond a bound is. */
  lemma ClampsAtBound(sqrt: real -> real, p: real, lower: real, upper: real)
    requires IsSqrt(sqrt) && 0.0 < lower < upper && p > 0.0
    ensures 0.0 < sqrt(lower) < sqrt(upper) && sqrt(lower) <= Clamp(sqrt(p), sqrt(lower), sqrt(upper)) <= sqrt(upper)
    ensures p >= upper ==> Clamp(sqrt(p), sqrt(lower), sqrt(upper)) == sqrt(upper)
    ensures p <= lower ==> Clamp(sqrt(p), sqrt(lower), sqrt(upper)) == sqrt(lower)
    ensures p < upper ==> Clamp(sqrt(p), sqrt(lower), sqrt(upper)) < sqrt(upper)
    ensures p > lower ==> Clamp(sqrt(p), sqrt(lower), sqrt(upper)) > sqrt(lower)
  {
    BoundRoots(sqrt, lower, upper);
    RootsOrdered(sqrt(p), sqrt(upper), p, upper);
    RootsOrdered(sqrt(lower), sqrt(p), lower, p);
    RootsOrdered(sqrt(p), sqrt(lower), p, lower);
  }

  /** x token A and y token B at price p. */
  function Worth(x: real, y: real, p: real): real {
    x * p + y
  }

  /** What holding the entry composition is worth at price p. */
  function Held(a: real, b: real, s0: real, p: real): real
    requires 0.0 < a && 0.0 < b && 0.0 < s0
  {
    Worth(1.0 / s0 - 1.0 / b, s0 - a, p)
  }

  /** What the position is worth below its range: all token A. */
  function AllTokenA(a: real, b: real, p: real): real
    requires 0.0 < a && 0.0 < b
  {
    Worth(1.0 / a - 1.0 / b, 0.0, p)
  }

  lemma ValueAtUpper(a: real, b: real, p: real)
    requires 0.0 < a < b
    ensures Value(a, b, b, p) == b - a
  {
    assert 1.0 / b - 1.0 / b == 0.0;
  }

  lemma ValueAtLower(a: real, b: real, p: real)
    requires 0.0 < a < b
    ensures Value(a, b, a, p) == AllTokenA(a, b, p)
  {
  }

  /** For every positive entry and price and every range, wherever both prices
      lie: the concentrated loss is at least as deep if and only if
      v(1 + q^2) <= 2qh, with v the position's value and h that of holding. */
  lemma ComparisonIff(sqrt: real -> real, entry: real, p: real, lower: real, upper: real, q: real)
    requires IsSqrt(sqrt) && Proper(entry, p, lower, upper) && p > 0.0 && IsRoot(q, p / entry)
    ensures var a, b := sqrt(lower), sqrt(upper);
            var s0, s1 := Clamp(sqrt(entry), a, b), Clamp(sqrt(p), a, b);
            && 0.0 < a < b && a <= s0 <= b && a <= s1 <= b
            && (ComputeIl(sqrt, entry, p, lower, upper) <= FullRangeIl(q)
                <==> AtLeastAsDeep(Value(a, b, s1, p), Held(a, b, s0, p), q))
  {
    ClampsAtBound(sqrt, p, lower, upper);
    ClampsAtBound(sqrt, entry, lower, upper);
    var a, b, s0, s1, h, v := IlAsRatio(sqrt, entry, p, lower, upper);
    RatioAgainstFullRange(v, h, q);
  }

  /** At price 0 the full-range loss is total; the concentrated one is too, unless
      the position was entered at or below its lower bound. */
  lemma AtZeroIff(sqrt: real -> real, entry: real, lower: real, upper: real, q: real)
    requires IsSqrt(sqrt) && Proper(entry, 0.0, lower, upper) && IsRoot(q, 0.0 / entry)
    ensures ComputeIl(sqrt, entry, 0.0, lower, upper) <= FullRangeIl(q) <==> entry > lower
  {
    SquareOrder(0.0, q);
    RootsOrdered(sqrt(0.0), 0.0, 0.0, 0.0);
    ClampsAtBound(sqrt, entry, lower, upper);
    var a, b, s0, s1 := Unclamped(sqrt, entry, 0.0, lower, upper);
    assert Value(a, b, s0, 0.0) == s0 - a && Value(a, b, s1, 0.0) == 0.0;
  }

  /** Above the range, for every entry: if and only if
      (b - a)(1 + q^2) <= 2q((1/s0 - 1/b)p + s0 - a). */
  lemma AboveRangeIff(sqrt: real -> real, entry: real, p: real, lower: real, upper: real, q: real)
    requires IsSqrt(sqrt) && Proper(entry, p, lower, upper) && p >= upper && IsRoot(q, p / entry)
    ensures var a, b := sqrt(lower), sqrt(upper);
            var s0 := Clamp(sqrt(entry), a, b);
            && 0.0 < a < b && a <= s0
            && (ComputeIl(sqrt, entry, p, lower, upper) <= FullRangeIl(q)
                <==> AtLeastAsDeep(b - a, Held(a, b, s0, p), q))
  {
    ClampsAtBound(sqrt, p, lower, upper);
    ComparisonIff(sqrt, entry, p, lower, upper, q);
    ValueAtUpper(sqrt(lower), sqrt(upper), p);
  }

  /** Below the range: if and only if (1/a - 1/b)p(1 + q^2) <= 2q((1/s0 - 1/b)p + s0 - a). */
  lemma BelowRangeIff(sqrt: real -> real, entry: real, p: real, lower: real, upper: real, q: real)
    requires IsSqrt(sqrt) && Proper(entry, p, lower, upper) && 0.0 < p <= lower && IsRoot(q, p / entry)
    ensures var a, b := sqrt(lower), sqrt(upper);
            var s0 := Clamp(sqrt(entry), a, b);
            && 0.0 < a < b && a <= s0
            && (ComputeIl(sqrt, entry, p, lower, upper) <= FullRangeIl(q)
                <==> AtLeastAsDeep(AllTokenA(a, b, p), Held(a, b, s0, p), q))
  {
    ClampsAtBound(sqrt, p, lower, upper);
    ComparisonIff(sqrt, entry, p, lower, upper, q);
    ValueAtLower(sqrt(lower), sqrt(upper), p);
  }

  // ---------------------------------------------------------------------
  // Back in the range from an entry outside it
  // ---------------------------------------------------------------------

  lemma ValueInside(a: real, b: real, r: real, p: real)
    requires 0.0 < a < b && a <= r <= b && r * r == p
    ensures Value(a, b, r, p) == 2.0 * r - p / b - a
  {
    var u, w := 1.0 / r, 1.0 / b;
    assert u * r == 1.0 && w * b == 1.0;
    assert u * p == (u * r) * r;
    assert (w * p) * b == p;
    assert w * p == p / b;
    assert (u - w) * p == u * p - w * p;
  }

  lemma RootInside(sqrt: real -> real, p: real, lower: real, upper: real)
    requires IsSqrt(sqrt) && 0.0 < lower < upper && lower <= p <= upper
    ensures 0.0 < sqrt(lower) < sqrt(upper) && sqrt(lower) <= sqrt(p) <= sqrt(upper)
    ensures Clamp(sqrt(p), sqrt(lower), sqrt(upper)) == sqrt(p) && sqrt(p) * sqrt(p) == p
  {
    BoundRoots(sqrt, lower, upper);
    RootsOrdered(sqrt(lower), sqrt(p), lower, p);
    RootsOrdered(sqrt(p), sqrt(upper), p, upper);
  }

  /** Price in range, every entry: with r = sqrt(p), if and only if
      (2r - p/b - a)(1 + q^2) <= 2q((1/s0 - 1/b)p + s0 - a). */
  lemma InRangeIff(sqrt: real -> real, entry: real, p: real, lower: real, upper: real, q: real)
    requires IsSqrt(sqrt) && Proper(entry, p, lower, upper) && lower <= p <= upper && IsRoot(q, p / entry)
    ensures var a, b, r := sqrt(lower), sqrt(upper), sqrt(p);
            var s0 := Clamp(sqrt(entry), a, b);
            && 0.0 < a < b && a <= s0
            && (ComputeIl(sqrt, entry, p, lower, upper) <= FullRangeIl(q)
                <==> AtLeastAsDeep(2.0 * r - p / b - a, Held(a, b, s0, p), q))
  {
    RootInside(sqrt, p, lower, upper);
    ValueInside(sqrt(lower), sqrt(upper), sqrt(p), p);
    ComparisonIff(sqrt, entry, p, lower, upper, q);
  }

  /** Entered at or below the lower bound: (2r - p/b - a)(1 + q^2) <= 2q(1/a - 1/b)p. */
  lemma EnteredBelowIff(sqrt: real -> real, entry: real, p: real, lower: real, upper: real, q: real)
    requires IsSqrt(sqrt) && 0.0 < entry <= lower < upper && lower <= p <= upper && IsRoot(q, p / entry)
    ensures var a, b, r := sqrt(lower), sqrt(upper), sqrt(p);
            && 0.0 < a < b
            && (ComputeIl(sqrt, entry, p, lower, upper) <= FullRangeIl(q)
                <==> AtLeastAsDeep(2.0 * r - p / b - a, AllTokenA(a, b, p), q))
  {
    ClampsAtBound(sqrt, entry, lower, upper);
    InRangeIff(sqrt, entry, p, lower, upper, q);
    var a, b := sqrt(lower), sqrt(upper);
    assert Held(a, b, a, p) == AllTokenA(a, b, p);
  }

  /** Entered at or above the upper bound: (2r - p/b - a)(1 + q^2) <= 2q(b - a). */
  lemma EnteredAboveIff(sqrt: real -> real, entry: real, p: real, lower: real, upper: real, q: real)
    requires IsSqrt(sqrt) && 0.0 < lower < upper <= entry && lower <= p <= upper && IsRoot(q, p / entry)
    ensures var a, b, r := sqrt(lower), sqrt(upper), sqrt(p);
            && 0.0 < a < b
            && (ComputeIl(sqrt, entry, p, lower, upper) <= FullRangeIl(q)
                <==> AtLeastAsDeep(2.0 * r - p / b - a, b - a, q))
  {
    ClampsAtBound(sqrt, entry, lower, upper);
    InRangeIff(sqrt, entry, p, lower, upper, q);
    var a, b := sqrt(lower), sqrt(upper);
    assert Held(a, b, b, p) == b - a;
  }

  // ---------------------------------------------------------------------
  // The two all-one-token families
  // ---------------------------------------------------------------------

  /** 2q <= 1 + q^2, with equality at 1 only. */
  lemma MeanOfSquares(q: real)
    requires q >= 0.0
    ensures 1.0 + q * q <= 2.0 * q <==> q == 1.0
  {
    var d := q - 1.0;
    SquareIsPositive(d, d * d);
    assert d * d == 1.0 + q * q - 2.0 * q;
  }

  lemma RatioOne(entry: real, p: real, q: real)
    requires entry > 0.0 && p > 0.0 && IsRoot(q, p / entry)
    ensures q == 1.0 <==> p == entry
  {
    assert (p / entry) * entry == p;
    SquareOrder(q, 1.0);
    SignOfFactor(p / entry - 1.0, entry);
  }

  lemma EqualValues(v: real, q: real)
    requires v > 0.0 && q >= 0.0
    ensures AtLeastAsDeep(v, v, q) <==> q == 1.0
  {
    MeanOfSquares(q);
    var x, y := 1.0 + q * q, 2.0 * q;
    SignOfFactor(y - x, v);
    assert (y - x) * v == y * v - v * x;
  }

  /** Entered at or above the upper bound the position is all token B above the
      range: it loses nothing, so the comparison fails there except at the entry
      price itself. */
  lemma AllTokenBIff(sqrt: real -> real, entry: real, p: real, lower: real, upper: real, q: real)
    requires IsSqrt(sqrt) && 0.0 < lower < upper <= entry && p >= upper && IsRoot(q, p / entry)
    ensures ComputeIl(sqrt, entry, p, lower, upper) <= FullRangeIl(q) <==> p == entry
  {
    AboveRangeIff(sqrt, entry, p, lower, upper, q);
    ClampsAtBound(sqrt, entry, lower, upper);
    var a, b := sqrt(lower), sqrt(upper);
    ValueAtUpper(a, b, p);
    assert Held(a, b, b, p) == b - a;
    EqualValues(b - a, q);
    RatioOne(entry, p, q);
  }

  /** Entered at or below the lower bound it is all token A below the range, with
      the same result. */
  lemma AllTokenAIff(sqrt: real -> real, entry: real, p: real, lower: real, upper: real, q: real)
    requires IsSqrt(sqrt) && 0.0 < entry <= lower < upper && 0.0 < p <= lower && IsRoot(q, p / entry)
    ensures ComputeIl(sqrt, entry, p, lower, upper) <= FullRangeIl(q) <==> p == entry
  {
    BelowRangeIff(sqrt, entry, p, lower, upper, q);
    ClampsAtBound(sqrt, entry, lower, upper);
    var a, b := sqrt(lower), sqrt(upper);
    Reciprocal(a, b);
    SignOfFactor(1.0 / a - 1.0 / b, p);
    assert Held(a, b, a, p) == AllTokenA(a, b, p);
    EqualValues(AllTokenA(a, b, p), q);
    RatioOne(entry, p, q);
  }

  // ---------------------------------------------------------------------
  // Far enough out the concentrated loss is deeper again
  // ---------------------------------------------------------------------

  /** c * entry * sqrt(p / entry): the measure both thresholds are about. */
  function Reach(c: real, entry: real, q: real): real {
    c * entry * q
  }

  /** Far above: with c = 1/s0 - 1/b of token A still held, q >= 1 and
      b - a <= c * entry * q suffice. */
  lemma FarAboveTest(width: real, c: real, rest: real, entry: real, p: real, q: real)
    requires width > 0.0 && c >= 0.0 && rest >= 0.0 && entry > 0.0 && q >= 1.0 && p == entry * (q * q)
    requires width <= Reach(c, entry, q)
    ensures AtLeastAsDeep(width, Worth(c, rest, p), q)
  {
    var qq := q * q;
    SquareOrder(1.0, q);
    ScaleOrder(1.0 + qq, 2.0 * qq, width);
    ScaleOrder(width, c * entry * q, 2.0 * qq);
    ProductOfNonNegatives(2.0 * q, rest);
    RegroupFar(c, entry, q, qq, p);
    assert 2.0 * q * (c * p + rest) == 2.0 * q * (c * p) + 2.0 * q * rest;
  }

  lemma RegroupFar(c: real, entry: real, q: real, qq: real, p: real)
    requires p == entry * qq
    ensures c * entry * q * (2.0 * qq) == 2.0 * q * (c * p)
  {
    assert c * p == c * entry * qq;
  }

  lemma PriceOfRatio(entry: real, p: real, q: real)
    requires entry > 0.0 && p > 0.0 && IsRoot(q, p / entry)
    ensures p == entry * (q * q) && q > 0.0
  {
    assert (p / entry) * entry == p;
    SignOfFactor(q * q, entry);
  }

  lemma FarAboveHolds(a: real, b: real, s0: real, entry: real, p: real, q: real)
    requires 0.0 < a <= s0 < b && entry > 0.0 && q >= 1.0 && p == entry * (q * q)
    requires b - a <= Reach(1.0 / s0 - 1.0 / b, entry, q)
    ensures 1.0 / s0 - 1.0 / b > 0.0
    ensures AtLeastAsDeep(b - a, Held(a, b, s0, p), q)
  {
    Reciprocal(s0, b);
    FarAboveTest(b - a, 1.0 / s0 - 1.0 / b, s0 - a, entry, p, q);
  }

  /** For every entry below the upper bound: from the price on at which
      sqrt(p / entry) reaches both 1 and (b - a) / ((1/s0 - 1/b) entry), a positive
      threshold, the concentrated loss is the deeper one, however far it runs. */
  lemma EventuallyDeeperAbove(sqrt: real -> real, entry: real, p: real, lower: real, upper: real, q: real)
    requires IsSqrt(sqrt) && 0.0 < lower < upper && 0.0 < entry < upper && p >= upper && IsRoot(q, p / entry)
    requires var a, b := sqrt(lower), sqrt(upper);
             var s0 := Clamp(sqrt(entry), a, b);
             q >= 1.0 && s0 > 0.0 && b > 0.0 && b - a <= Reach(1.0 / s0 - 1.0 / b, entry, q)
    ensures 1.0 / Clamp(sqrt(entry), sqrt(lower), sqrt(upper)) - 1.0 / sqrt(upper) > 0.0
    ensures ComputeIl(sqrt, entry, p, lower, upper) <= FullRangeIl(q)
  {
    AboveRangeIff(sqrt, entry, p, lower, upper, q);
    ClampsAtBound(sqrt, entry, lower, upper);
    PriceOfRatio(entry, p, q);
    FarAboveHolds(sqrt(lower), sqrt(upper), Clamp(sqrt(entry), sqrt(lower), sqrt(upper)), entry, p, q);
  }

  /** Far below: q <= 1 and (1/a - 1/b) * entry * q <= s0 - a suffice. */
  lemma FarBelowTest(d: real, c: real, rest: real, entry: real, p: real, q: real)
    requires d >= 0.0 && c >= 0.0 && rest >= 0.0 && entry > 0.0 && 0.0 < q <= 1.0 && p == entry * (q * q)
    requires Reach(d, entry, q) <= rest
    ensures AtLeastAsDeep(Worth(d, 0.0, p), Worth(c, rest, p), q)
  {
    var qq := q * q;
    SquareOrder(q, 1.0);
    SignOfFactor(q, q);
    ProductOfNonNegatives(entry, qq);
    ProductOfNonNegatives(d, p);
    ProductOfNonNegatives(c, p);
    ProductOfNonNegatives(2.0 * q, c * p);
    ScaleOrder(1.0 + qq, 2.0, d * p);
    ScaleOrder(d * entry * q, rest, 2.0 * q);
    RegroupNear(d, entry, q, qq, p);
    assert 2.0 * q * (c * p + rest) == 2.0 * q * (c * p) + 2.0 * q * rest;
  }

  lemma RegroupNear(d: real, entry: real, q: real, qq: real, p: real)
    requires p == entry * qq && qq == q * q
    ensures d * entry * q * (2.0 * q) == 2.0 * (d * p)
  {
    assert d * p == d * entry * qq;
  }

  lemma FarBelowHolds(a: real, b: real, s0: real, entry: real, p: real, q: real)
    requires 0.0 < a < s0 <= b && entry > 0.0 && 0.0 < q <= 1.0 && p == entry * (q * q)
    requires Reach(1.0 / a - 1.0 / b, entry, q) <= s0 - a
    ensures AtLeastAsDeep(AllTokenA(a, b, p), Held(a, b, s0, p), q)
  {
    Reciprocal(a, b);
    Reciprocal(s0, b);
    FarBelowTest(1.0 / a - 1.0 / b, 1.0 / s0 - 1.0 / b, s0 - a, entry, p, q);
  }

  /** The mirror: for every entry above the lower bound, from the price on at which
      sqrt(p / entry) falls to both 1 and (s0 - a) / ((1/a - 1/b) entry), a positive
      threshold. */
  lemma EventuallyDeeperBelow(sqrt: real -> real, entry: real, p: real, lower: real, upper: real, q: real)
    requires IsSqrt(sqrt) && 0.0 < lower < upper && entry > lower && 0.0 < p <= lower && IsRoot(q, p / entry)
    requires var a, b := sqrt(lower), sqrt(upper);
             var s0 := Clamp(sqrt(entry), a, b);
             q <= 1.0 && a > 0.0 && b > 0.0 && Reach(1.0 / a - 1.0 / b, entry, q) <= s0 - a
    ensures Clamp(sqrt(entry), sqrt(lower), sqrt(upper)) - sqrt(lower) > 0.0
    ensures ComputeIl(sqrt, entry, p, lower, upper) <= FullRangeIl(q)
  {
    BelowRangeIff(sqrt, entry, p, lower, upper, q);
    ClampsAtBound(sqrt, entry, lower, upper);
    PriceOfRatio(entry, p, q);
    FarBelowHolds(sqrt(lower), sqrt(upper), Clamp(sqrt(entry), sqrt(lower), sqrt(upper)), entry, p, q);
  }

  // ---------------------------------------------------------------------
  // Both outcomes occur
  // ---------------------------------------------------------------------

  lemma RootIs(sqrt: real -> real, p: real, s: real)
    requires IsSqrt(sqrt) && IsRoot(s, p) && p >= 0.0
    ensures sqrt(p) == s
  {
    RootsOrdered(sqrt(p), s, p, p);
  }

  /** Entry 1 in [1/4, 4]: at price 16, far outside, the concentrated loss is
      still the deeper one. */
  lemma DeeperFarOutside(sqrt: real -> real)
    requires IsSqrt(sqrt)
    ensures ComputeIl(sqrt, 1.0, 16.0, 0.25, 4.0) <= FullRangeIl(4.0)
  {
    RootIs(sqrt, 0.25, 0.5);
    RootIs(sqrt, 4.0, 2.0);
    RootIs(sqrt, 1.0, 1.0);
    AboveRangeIff(sqrt, 1.0, 16.0, 0.25, 4.0, 4.0);
  }

  /** Entry 1 strictly inside [1/4, 1.0201]: at price 4 the full-range formula is
      the deeper one. */
  lemma ShallowerJustOutside(sqrt: real -> real)
    requires IsSqrt(sqrt)
    ensures FullRangeIl(2.0) < ComputeIl(sqrt, 1.0, 4.0, 0.25, 1.0201)
  {
    RootIs(sqrt, 0.25, 0.5);
    RootIs(sqrt, 1.0201, 1.01);
    RootIs(sqrt, 1.0, 1.0);
    AboveRangeIff(sqrt, 1.0, 4.0, 0.25, 1.0201, 2.0);
  }

  /** Entry 1/16 below [1, 4], price 1.21 inside: the full-range formula is the
      deeper one. */
  lemma ShallowerInside(sqrt: real -> real)
    requires IsSqrt(sqrt)
    ensures FullRangeIl(4.4) < ComputeIl(sqrt, 0.0625, 1.21, 1.0, 4.0)
  {
    RootIs(sqrt, 1.0, 1.0);
    RootIs(sqrt, 4.0, 2.0);
    RootIs(sqrt, 1.21, 1.1);
    EnteredBelowIff(sqrt, 0.0625, 1.21, 1.0, 4.0, 4.4);
  }
}
