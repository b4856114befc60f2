/** Concentrated-liquidity impermanent loss (src/math/il.rs). Square roots come
    from a function `sqrt` of which only `s >= 0 && s * s == p` is used. */
module ImpermanentLoss {
  import opened Numerics

  predicate IsRoot(s: real, p: real) {
    s >= 0.0 && s * s == p
  }

  ghost predicate IsSqrt(sqrt: real -> real) {
    forall p | p >= 0.0 :: IsRoot(sqrt(p), p)
  }

  function Clamp(s: real, lo: real, hi: real): real {
    if s < lo then lo else if s > hi then hi else s
  }

  /** Value at price `p` of a unit-liquidity position whose (clamped) sqrt price
      is `s`, in a range with sqrt bounds a and b: x token A and y token B. */
  function Value(a: real, b: real, s: real, p: real): real
    requires 0.0 < a < b && a <= s <= b
  {
    (1.0 / s - 1.0 / b) * p + (s - a)
  }

  /** `compute_il`. The f64 root of a negative number is NaN, NaN bounds return
      early, and `NaN.min(0.0)` is 0.0, hence the zeros for negative prices. */
  function ComputeIl(sqrt: real -> real, entry: real, current: real, lower: real, upper: real): real {
    if entry == 0.0 || lower < 0.0 || upper < 0.0 then 0.0
    else
      var pa, pb := sqrt(lower), sqrt(upper);
      if pa <= 0.0 || pb <= pa then 0.0
      else if entry < 0.0 || current < 0.0 then 0.0
      else
        var sp0 := Clamp(sqrt(entry), pa, pb);
        var sp1 := Clamp(sqrt(current), pa, pb);
        var vHodl := Value(pa, pb, sp0, current);
        var vLp := Value(pa, pb, sp1, current);
        if vHodl <= 0.0 then 0.0 else MinReal(vLp / vHodl - 1.0, 0.0)
  }

  /** IL in USD: a fraction in [-1, 0] of the position value. */
  function IlUsd(il: real, positionValue: real): (usd: real)
    ensures -1.0 <= il <= 0.0 && positionValue >= 0.0 ==> -positionValue <= usd <= 0.0
    ensures il == 0.0 ==> usd == 0.0
  {
    assert -1.0 <= il <= 0.0 && positionValue >= 0.0 ==> -positionValue <= il * positionValue <= 0.0 by {
      if -1.0 <= il <= 0.0 && positionValue >= 0.0 {
        FractionOf(il, positionValue);
      }
    }
    il * positionValue
  }

  lemma FractionOf(f: real, v: real)
    requires -1.0 <= f <= 0.0 && v >= 0.0
    ensures -v <= f * v <= 0.0
  {
    ProductOfNonNegatives(-f, v);
    ProductOfNonNegatives(f + 1.0, v);
    assert -f * v == -(f * v) && (f + 1.0) * v == f * v + v;
  }

  /** The ordinary case of the documentation: known prices, a proper range. */
  predicate Proper(entry: real, current: real, lower: real, upper: real) {
    entry > 0.0 && current >= 0.0 && 0.0 < lower < upper
  }

  // ---------------------------------------------------------------------
  // Roots
  // ---------------------------------------------------------------------

  lemma RootsOrdered(s: real, t: real, p: real, q: real)
    requires IsRoot(s, p) && IsRoot(t, q)
    ensures p < q <==> s < t
    ensures p == q <==> s == t
    ensures p > 0.0 <==> s > 0.0
  {
    SquareOrder(s, t);
    SquareOrder(0.0, s);
  }

  lemma BoundRoots(sqrt: real -> real, lower: real, upper: real)
    requires IsSqrt(sqrt) && 0.0 < lower < upper
    ensures 0.0 < sqrt(lower) < sqrt(upper)
    ensures IsRoot(sqrt(lower), lower) && IsRoot(sqrt(upper), upper)
  {
    RootsOrdered(sqrt(lower), sqrt(upper), lower, upper);
  }

  // ---------------------------------------------------------------------
  // The loss as a ratio
  // ---------------------------------------------------------------------

  /** What holding is worth over the position at price `p`. */
  function Gap(a: real, b: real, s0: real, s1: real, p: real): real
    requires 0.0 < a < b && a <= s0 <= b && a <= s1 <= b
  {
    Value(a, b, s0, p) - Value(a, b, s1, p)
  }

  /** A price and its clamped root: the root itself inside the range, the bound
      on the side where the price lies outside. */
  predicate ClampedRoot(a: real, b: real, s: real, p: real) {
    && a <= s <= b
    && (s * s == p || (s == a && p <= a * a) || (s == b && p >= b * b))
  }

  lemma ClampIsClampedRoot(a: real, b: real, r: real, p: real)
    requires 0.0 < a < b && IsRoot(r, p)
    ensures ClampedRoot(a, b, Clamp(r, a, b), p)
  {
    SquareOrder(r, a);
    SquareOrder(b, r);
  }

  lemma Reciprocal(s: real, t: real)
    requires s > 0.0 && t > 0.0
    ensures (1.0 / s - 1.0 / t) * (s * t) == t - s
    ensures s <= t ==> 1.0 / s - 1.0 / t >= 0.0
    ensures s < t ==> 1.0 / s - 1.0 / t > 0.0
  {
    var u, v := 1.0 / s, 1.0 / t;
    assert u * s == 1.0 && v * t == 1.0;
    assert (u - v) * (s * t) == (u * s) * t - (v * t) * s;
    SignOfFactor(s, t);
    SignOfFactor(u - v, s * t);
  }

  lemma GapFactors(a: real, b: real, s0: real, s1: real, p: real)
    requires 0.0 < a < b && a <= s0 <= b && a <= s1 <= b
    ensures GapIs(Gap(a, b, s0, s1, p), s0 * s1, s1 - s0, p - s0 * s1)
  {
    var d := 1.0 / s0 - 1.0 / s1;
    GapLinear(1.0 / s0, 1.0 / s1, 1.0 / b, a, s0, s1, p);
    Reciprocal(s0, s1);
    ScaleSplit(d, p, s0 - s1, s0 * s1);
  }

  lemma GapLinear(u: real, v: real, w: real, a: real, s0: real, s1: real, p: real)
    ensures ((u - w) * p + (s0 - a)) - ((v - w) * p + (s1 - a)) == (u - v) * p + (s0 - s1)
  {
  }

  lemma ScaleSplit(d: real, p: real, e: real, m: real)
    ensures (d * p + e) * m == (d * m) * p + e * m
  {
  }

  /** Holding is never worth less than the position, and is worth the same
      exactly when the clamped prices coincide. */
  lemma GapSign(a: real, b: real, s0: real, s1: real, p: real)
    requires 0.0 < a < b && a <= s0 <= b && p >= 0.0 && ClampedRoot(a, b, s1, p)
    ensures Gap(a, b, s0, s1, p) >= 0.0
    ensures Gap(a, b, s0, s1, p) == 0.0 <==> s0 == s1
  {
    GapFactors(a, b, s0, s1, p);
    SignOfFactor(s0, s1);
    GapNumeratorSign(a, b, s0, s1, p);
    SignOfFactor(Gap(a, b, s0, s1, p), s0 * s1);
  }

  lemma GapNumeratorSign(a: real, b: real, s0: real, s1: real, p: real)
    requires 0.0 < a < b && a <= s0 <= b && ClampedRoot(a, b, s1, p)
    ensures (s1 - s0) * (p - s0 * s1) >= 0.0
    ensures (s1 - s0) * (p - s0 * s1) == 0.0 <==> s0 == s1
  {
    if s1 > s0 {
      ScaleStrictOrder(s0, s1, s1);
      SignOfFactor(s1 - s0, p - s0 * s1);
    } else if s1 < s0 {
      ScaleStrictOrder(s1, s0, s1);
      SignOfFactor(s0 - s1, s0 * s1 - p);
      assert (s1 - s0) * (p - s0 * s1) == (s0 - s1) * (s0 * s1 - p);
    }
  }

  lemma SignOfFactorIfPositive(x: real, p: real)
    ensures x > 0.0 && p > 0.0 ==> x * p > 0.0
  {
  }

  lemma ValueSign(a: real, b: real, s: real, p: real)
    requires 0.0 < a < b && a <= s <= b && p >= 0.0
    ensures Value(a, b, s, p) >= 0.0
    ensures p > 0.0 || s > a ==> Value(a, b, s, p) > 0.0
  {
    Reciprocal(s, b);
    var x := 1.0 / s - 1.0 / b;
    ProductOfNonNegatives(x, p);
    SignOfFactorIfPositive(x, p);
    assert Value(a, b, s, p) == x * p + (s - a);
  }

  // ---------------------------------------------------------------------
  // Bounds and zero set
  // ---------------------------------------------------------------------

  /** The clamped roots and unit-position values of an ordinary call. */
  lemma Unclamped(sqrt: real -> real, entry: real, current: real, lower: real, upper: real)
    returns (a: real, b: real, s0: real, s1: real)
    requires IsSqrt(sqrt) && Proper(entry, current, lower, upper)
    ensures a == sqrt(lower) && b == sqrt(upper) && IsRoot(a, lower) && IsRoot(b, upper) && 0.0 < a < b
    ensures s0 == Clamp(sqrt(entry), a, b) && ClampedRoot(a, b, s0, entry)
    ensures s1 == Clamp(sqrt(current), a, b) && ClampedRoot(a, b, s1, current)
    ensures ComputeIl(sqrt, entry, current, lower, upper)
         == (if Value(a, b, s0, current) <= 0.0 then 0.0
             else MinReal(Value(a, b, s1, current) / Value(a, b, s0, current) - 1.0, 0.0))
  {
    BoundRoots(sqrt, lower, upper);
    a, b := sqrt(lower), sqrt(upper);
    s0, s1 := Clamp(sqrt(entry), a, b), Clamp(sqrt(current), a, b);
    ClampIsClampedRoot(a, b, sqrt(entry), entry);
    ClampIsClampedRoot(a, b, sqrt(current), current);
  }

  lemma RatioBelowOne(v: real, h: real)
    requires h > 0.0 && 0.0 <= v <= h
    ensures 0.0 <= v / h <= 1.0
    ensures v / h == 1.0 <==> v == h
  {
    var q := v / h;
    assert q * h == v;
    SignOfFactor(q, h);
    SignOfFactor(1.0 - q, h);
  }

  /** For every positive entry, non-negative price and proper range the result
      lies in [-1, 0]; the final `min(0)` never changes it; and it is 0 exactly
      when the clamped sqrt prices of entry and current coincide. */
  lemma IlBounds(sqrt: real -> real, entry: real, current: real, lower: real, upper: real)
    requires IsSqrt(sqrt) && Proper(entry, current, lower, upper)
    ensures var il := ComputeIl(sqrt, entry, current, lower, upper);
            var a, b := sqrt(lower), sqrt(upper);
            && -1.0 <= il <= 0.0
            && (il == 0.0 <==> Clamp(sqrt(entry), a, b) == Clamp(sqrt(current), a, b))
  {
    var a, b, s0, s1 := Unclamped(sqrt, entry, current, lower, upper);
    GapSign(a, b, s0, s1, current);
    ValueSign(a, b, s0, current);
    ValueSign(a, b, s1, current);
    if Value(a, b, s0, current) > 0.0 {
      RatioBelowOne(Value(a, b, s1, current), Value(a, b, s0, current));
    } else {
      RootsOrdered(sqrt(current), a, current, lower);
    }
  }

  /** At a positive price the held value is positive and `min(0)` is redundant:
      the result is the ratio of the two portfolio values less one. */
  lemma IlAsRatio(sqrt: real -> real, entry: real, current: real, lower: real, upper: real)
    returns (a: real, b: real, s0: real, s1: real, hodl: real, lp: real)
    requires IsSqrt(sqrt) && Proper(entry, current, lower, upper) && current > 0.0
    ensures a == sqrt(lower) && b == sqrt(upper) && IsRoot(a, lower) && IsRoot(b, upper) && 0.0 < a < b
    ensures ClampedRoot(a, b, s0, entry) && ClampedRoot(a, b, s1, current)
    ensures s0 == Clamp(sqrt(entry), a, b) && s1 == Clamp(sqrt(current), a, b)
    ensures hodl == Value(a, b, s0, current) && lp == Value(a, b, s1, current) && 0.0 < hodl
    ensures ComputeIl(sqrt, entry, current, lower, upper) == lp / hodl - 1.0
  {
    a, b, s0, s1 := Unclamped(sqrt, entry, current, lower, upper);
    hodl, lp := Value(a, b, s0, current), Value(a, b, s1, current);
    GapSign(a, b, s0, s1, current);
    ValueSign(a, b, s0, current);
    ValueSign(a, b, s1, current);
    RatioBelowOne(lp, hodl);
  }

  // ---------------------------------------------------------------------
  // Deepening
  // ---------------------------------------------------------------------

  /** `q` is at least as far from the entry as `p`, on the same side. */
  predicate Farther(entry: real, p: real, q: real) {
    entry <= p <= q || q <= p <= entry
  }

  /** Moves that clamp to the same root: `(p - m) / (x * p + y)` grows with p. */
  lemma LinearCross(x: real, y: real, m: real, p: real, q: real)
    requires x >= 0.0 && y >= 0.0 && m >= 0.0 && p <= q
    ensures (p - m) * (x * q + y) <= (q - m) * (x * p + y)
  {
    ProductOfNonNegatives(x, m);
    ProductOfNonNegatives(q - p, y + x * m);
    assert (q - m) * (x * p + y) - (p - m) * (x * q + y) == (q - p) * (y + x * m);
  }

  /** Moves inside the range, as distances u <= w of the roots from the entry
      root; hp and hq are the held values at r^2 and t^2. */
  lemma SquareCross(x: real, y: real, u: real, w: real, r: real, t: real, hp: real, hq: real)
    requires x >= 0.0 && y >= 0.0 && 0.0 <= u <= w && r >= 0.0 && t >= 0.0 && u * t <= w * r
    requires ValueIs(hp, x, y, r * r) && ValueIs(hq, x, y, t * t)
    ensures (u * u) * hq <= (w * w) * hp
  {
    ProductOfNonNegatives(u, t);
    ProductOfNonNegatives(w, r);
    SquareOrder(u * t, w * r);
    SquareOrder(u, w);
    SquareValue(u, t, x, y, hq);
    SquareValue(w, r, x, y, hp);
    WeightedOrder((u * t) * (u * t), (w * r) * (w * r), u * u, w * w, x, y);
  }

  lemma SquareValue(u: real, t: real, x: real, y: real, h: real)
    requires ValueIs(h, x, y, t * t)
    ensures (u * u) * h == ((u * t) * (u * t)) * x + (u * u) * y
  {
    RegroupSquare(u, t, x, y);
  }

  lemma WeightedOrder(a: real, b: real, c: real, d: real, x: real, y: real)
    requires a <= b && c <= d && x >= 0.0 && y >= 0.0
    ensures a * x + c * y <= b * x + d * y
  {
    ScaleOrder(a, b, x);
    ScaleOrder(c, d, y);
  }

  lemma RegroupSquare(u: real, t: real, x: real, y: real)
    ensures (u * u) * (x * (t * t) + y) == ((u * t) * (u * t)) * x + (u * u) * y
  {
  }

  lemma SquareOfDistance(x: real)
    ensures AbsReal(x) * AbsReal(x) == x * x
  {
  }

  /** Inside the range the gap is (r - s0)^2 / s0. */
  lemma GapInRange(a: real, b: real, s0: real, r: real, p: real)
    requires 0.0 < a < b && a <= s0 <= b && a <= r <= b && p == r * r
    ensures GapIs(Gap(a, b, s0, r, p), s0, AbsReal(r - s0), AbsReal(r - s0))
  {
    GapFactors(a, b, s0, r, p);
    SquareOfDistance(r - s0);
    DivideByRoot(Gap(a, b, s0, r, p), s0, r, p);
  }

  lemma DivideByRoot(g: real, s0: real, r: real, p: real)
    requires r > 0.0 && p == r * r && g * (s0 * r) == (r - s0) * (p - s0 * r)
    ensures g * s0 == (r - s0) * (r - s0)
  {
    assert (g * s0 - (r - s0) * (r - s0)) * r == g * (s0 * r) - (r - s0) * (r * r - s0 * r);
    SignOfFactor(g * s0 - (r - s0) * (r - s0), r);
  }

  // The comparisons below are made on plain numbers. Naming the few equations
  // they need keeps the solver from expanding both portfolios at every step.

  /** A gap `g` known up to the factor m: g * m == c * d. */
  predicate GapIs(g: real, m: real, c: real, d: real) {
    g * m == c * d
  }

  /** The value `h` of x token A and y token B at price p. */
  predicate ValueIs(h: real, x: real, y: real, p: real) {
    h == x * p + y
  }

  /** Cross-multiplied "g1 / h1 <= g2 / h2". */
  predicate Cross(g1: real, h1: real, g2: real, h2: real) {
    g1 * h2 <= g2 * h1
  }

  /** Cross-multiplied comparison of two gaps known up to a common factor m. */
  lemma CancelCommonFactor(g1: real, e1: real, h1: real, g2: real, e2: real, h2: real, m: real)
    requires m > 0.0 && g1 * m == e1 && g2 * m == e2 && e1 * h2 <= e2 * h1
    ensures Cross(g1, h1, g2, h2)
  {
    SignOfFactor(g2 * h1 - g1 * h2, m);
    assert (g2 * h1 - g1 * h2) * m == (g2 * m) * h1 - (g1 * m) * h2;
  }

  /** The in-range comparison on plain numbers: x, y the held amounts, u and w
      the distances of the roots r and t from the entry root, hp and hq the held
      values, gp and gq the gaps at prices r^2 and t^2. */
  lemma InRangeCross(x: real, y: real, s0: real, u: real, w: real, r: real, t: real, hp: real, hq: real, gp: real, gq: real)
    requires x >= 0.0 && y >= 0.0 && s0 > 0.0 && r > 0.0 && t > 0.0 && 0.0 <= u <= w && u * t <= w * r
    requires ValueIs(hp, x, y, r * r) && ValueIs(hq, x, y, t * t)
    requires GapIs(gp, s0, u, u) && GapIs(gq, s0, w, w)
    ensures Cross(gp, hp, gq, hq)
  {
    SquareCross(x, y, u, w, r, t, hp, hq);
    CancelCommonFactor(gp, u * u, hp, gq, w * w, hq, s0);
  }

  lemma ValueAt(a: real, b: real, s0: real, p: real, r: real)
    requires 0.0 < a < b && a <= s0 <= b && p == r * r
    ensures ValueIs(Value(a, b, s0, p), 1.0 / s0 - 1.0 / b, s0 - a, r * r)
  {
  }

  lemma InRangeDeepens(a: real, b: real, s0: real, r: real, t: real, p: real, q: real)
    requires 0.0 < a < b && a <= s0 <= b && a <= r <= b && a <= t <= b && Farther(s0, r, t)
    requires p == r * r && q == t * t
    ensures Cross(Gap(a, b, s0, r, p), Value(a, b, s0, p), Gap(a, b, s0, t, q), Value(a, b, s0, q))
  {
    Reciprocal(s0, b);
    GapInRange(a, b, s0, r, p);
    GapInRange(a, b, s0, t, q);
    DistanceCross(s0, r, t);
    ValueAt(a, b, s0, p, r);
    ValueAt(a, b, s0, q, t);
    InRangeCross(1.0 / s0 - 1.0 / b, s0 - a, s0, AbsReal(r - s0), AbsReal(t - s0), r, t,
                 Value(a, b, s0, p), Value(a, b, s0, q), Gap(a, b, s0, r, p), Gap(a, b, s0, t, q));
  }

  lemma DistanceCross(s0: real, r: real, t: real)
    requires s0 >= 0.0 && Farther(s0, r, t)
    ensures AbsReal(r - s0) <= AbsReal(t - s0)
    ensures AbsReal(r - s0) * t <= AbsReal(t - s0) * r
  {
    if s0 <= r <= t {
      ScaleOrder(r, t, s0);
      assert (t - s0) * r - (r - s0) * t == t * s0 - r * s0;
    } else {
      ScaleOrder(t, r, s0);
      assert (s0 - t) * r - (s0 - r) * t == r * s0 - t * s0;
    }
  }

  /** The out-of-range comparison on plain numbers: c is the fixed distance of
      the clamped root from the entry root, m their product. */
  lemma OutOfRangeCross(x: real, y: real, c: real, m: real, p: real, q: real, hp: real, hq: real, gp: real, gq: real)
    requires x >= 0.0 && y >= 0.0 && m > 0.0 && ((c >= 0.0 && p <= q) || (c <= 0.0 && q <= p))
    requires ValueIs(hp, x, y, p) && ValueIs(hq, x, y, q)
    requires GapIs(gp, m, c, p - m) && GapIs(gq, m, c, q - m)
    ensures Cross(gp, hp, gq, hq)
  {
    if c >= 0.0 && p <= q {
      LinearCross(x, y, m, p, q);
    } else {
      LinearCross(x, y, m, q, p);
    }
    ScaledCross(c, p - m, hp, q - m, hq);
    CancelCommonFactor(gp, c * (p - m), hp, gq, c * (q - m), hq, m);
  }

  lemma ScaledCross(c: real, d1: real, h1: real, d2: real, h2: real)
    requires (c >= 0.0 && d1 * h2 <= d2 * h1) || (c <= 0.0 && d2 * h1 <= d1 * h2)
    ensures (c * d1) * h2 <= (c * d2) * h1
  {
    if c >= 0.0 && d1 * h2 <= d2 * h1 {
      ProductOfNonNegatives(c, d2 * h1 - d1 * h2);
    } else {
      ProductOfNonNegatives(-c, d1 * h2 - d2 * h1);
    }
    assert (c * d2) * h1 - (c * d1) * h2 == c * (d2 * h1 - d1 * h2);
  }

  lemma OutOfRangeDeepens(a: real, b: real, s0: real, s1: real, p: real, q: real)
    requires 0.0 < a < b && a <= s0 <= b
    requires (s1 == b && p <= q) || (s1 == a && q <= p)
    ensures Cross(Gap(a, b, s0, s1, p), Value(a, b, s0, p), Gap(a, b, s0, s1, q), Value(a, b, s0, q))
  {
    Reciprocal(s0, b);
    SignOfFactor(s0, s1);
    GapFactors(a, b, s0, s1, p);
    GapFactors(a, b, s0, s1, q);
    OutOfRangeCross(1.0 / s0 - 1.0 / b, s0 - a, s1 - s0, s0 * s1, p, q, Value(a, b, s0, p), Value(a, b, s0, q),
                    Gap(a, b, s0, s1, p), Gap(a, b, s0, s1, q));
  }

  /** A larger gap relative to the held value is a deeper loss. */
  lemma DeeperFromGap(h1: real, v1: real, h2: real, v2: real)
    requires h1 > 0.0 && h2 > 0.0 && Cross(h1 - v1, h1, h2 - v2, h2)
    ensures v2 / h2 - 1.0 <= v1 / h1 - 1.0
  {
    assert v2 * h1 <= v1 * h2;
    RatioOrder(v2, h2, v1, h1);
  }

  /** Both prices in the same regime: below, inside or above the range. */
  predicate SameRegime(p: real, q: real, lower: real, upper: real) {
    (p <= lower && q <= lower) || (lower <= p <= upper && lower <= q <= upper) || (p >= upper && q >= upper)
  }

  /** Clamping roots keeps the order of the prices. */
  lemma ClampedOrder(a: real, b: real, s: real, p: real, t: real, q: real)
    requires 0.0 < a < b && ClampedRoot(a, b, s, p) && ClampedRoot(a, b, t, q) && p <= q
    ensures s <= t
  {
    SquareOrder(s, t);
    SquareOrder(s, a);
    SquareOrder(b, t);
  }

  lemma ClampedInside(a: real, b: real, s: real, p: real)
    requires 0.0 < a < b && ClampedRoot(a, b, s, p)
    ensures a * a <= p <= b * b ==> s * s == p
    ensures p >= b * b ==> s == b
    ensures p <= a * a ==> s == a
  {
    SquareOrder(a, b);
    SquareOrder(s, a);
    SquareOrder(s, b);
  }

  lemma GapGrowsWithinRegime(a: real, b: real, s0: real, r: real, t: real, entry: real, p: real, q: real)
    requires 0.0 < a < b && ClampedRoot(a, b, s0, entry) && ClampedRoot(a, b, r, p) && ClampedRoot(a, b, t, q)
    requires Farther(entry, p, q) && SameRegime(p, q, a * a, b * b)
    ensures Cross(Gap(a, b, s0, r, p), Value(a, b, s0, p), Gap(a, b, s0, t, q), Value(a, b, s0, q))
  {
    ClampedInside(a, b, r, p);
    ClampedInside(a, b, t, q);
    FartherRoots(a, b, s0, r, t, entry, p, q);
    if r * r == p && t * t == q {
      InRangeDeepens(a, b, s0, r, t, p, q);
    } else {
      assert r == t;
      ClampedInside(a, b, s0, entry);
      if s0 != r {
        OutOfRangeDeepens(a, b, s0, r, p, q);
      }
    }
  }

  lemma FartherRoots(a: real, b: real, s0: real, r: real, t: real, entry: real, p: real, q: real)
    requires 0.0 < a < b && ClampedRoot(a, b, s0, entry) && ClampedRoot(a, b, r, p) && ClampedRoot(a, b, t, q)
    requires Farther(entry, p, q)
    ensures Farther(s0, r, t)
  {
    if entry <= p <= q {
      ClampedOrder(a, b, s0, entry, r, p);
      ClampedOrder(a, b, r, p, t, q);
    } else {
      ClampedOrder(a, b, t, q, r, p);
      ClampedOrder(a, b, r, p, s0, entry);
    }
  }

  lemma DeepensWithinRegime(sqrt: real -> real, entry: real, p: real, q: real, lower: real, upper: real)
    requires IsSqrt(sqrt) && Proper(entry, p, lower, upper) && Proper(entry, q, lower, upper)
    requires p > 0.0 && q > 0.0
    requires Farther(entry, p, q) && SameRegime(p, q, lower, upper)
    ensures ComputeIl(sqrt, entry, q, lower, upper) <= ComputeIl(sqrt, entry, p, lower, upper)
  {
    var a, b, s0, r, hp, vp := IlAsRatio(sqrt, entry, p, lower, upper);
    var _, _, _, t, hq, vq := IlAsRatio(sqrt, entry, q, lower, upper);
    GapGrowsWithinRegime(a, b, s0, r, t, entry, p, q);
    DeeperFromGap(hp, vp, hq, vq);
  }

  /** Monotone deepening: from any positive entry, moving the price further
      away on the same side never makes the loss shallower, through the range
      and beyond either bound. */
  lemma IlDeepensAwayFromEntry(sqrt: real -> real, entry: real, p: real, q: real, lower: real, upper: real)
    requires IsSqrt(sqrt) && Proper(entry, p, lower, upper) && Proper(entry, q, lower, upper)
    requires p > 0.0 && q > 0.0 && Farther(entry, p, q)
    ensures ComputeIl(sqrt, entry, q, lower, upper) <= ComputeIl(sqrt, entry, p, lower, upper)
  {
    if SameRegime(p, q, lower, upper) {
      DeepensWithinRegime(sqrt, entry, p, q, lower, upper);
    } else if p <= q {
      // Stop at each bound that lies between the two prices.
      var first := if p < lower then lower else upper;
      DeepensWithinRegime(sqrt, entry, p, first, lower, upper);
      var second := if q > upper then upper else first;
      DeepensWithinRegime(sqrt, entry, first, second, lower, upper);
      DeepensWithinRegime(sqrt, entry, second, q, lower, upper);
    } else {
      var first := if p > upper then upper else lower;
      DeepensWithinRegime(sqrt, entry, p, first, lower, upper);
      var second := if q < lower then lower else first;
      DeepensWithinRegime(sqrt, entry, first, second, lower, upper);
      DeepensWithinRegime(sqrt, entry, second, q, lower, upper);
    }
  }

  // ---------------------------------------------------------------------
  // Comparison with the full-range formula
  // ---------------------------------------------------------------------

  /** 2 * sqrt(k) / (1 + k) - 1, as a function of q = sqrt(k). */
  function FullRangeIl(q: real): real
    requires q >= 0.0
  {
    2.0 * q / (1.0 + q * q) - 1.0
  }

  lemma SquarePositive(x: real)
    ensures x * x >= 0.0
    ensures x < 0.0 || x > 0.0 ==> x * x > 0.0
  {
    if x > 0.0 {
      SignOfFactor(x, x);
    } else if x < 0.0 {
      SignOfFactor(-x, -x);
    }
  }

  lemma SquareIsPositive(d: real, e: real)
    requires e == d * d
    ensures e >= 0.0
    ensures d < 0.0 ==> e > 0.0
    ensures d > 0.0 ==> e > 0.0
  {
    if d > 0.0 {
      SignOfFactor(d, d);
    } else if d < 0.0 {
      SignOfFactor(-d, -d);
    }
  }

  /** The formula through e = (q - 1)^2 and k = 1 + q^2. */
  lemma FullRangeForm(q: real, d: real, e: real, k: real)
    requires q >= 0.0 && d == q - 1.0 && e == d * d && k == 1.0 + q * q
    ensures e >= 0.0 && k >= 1.0
    ensures q != 1.0 ==> e > 0.0
    ensures FullRangeIl(q) == (k - e) / k - 1.0
    ensures q != 1.0 ==> FullRangeIl(q) < 0.0
  {
    SquareIsPositive(d, e);
    SquarePositive(q);
    assert k - e == 2.0 * q;
    var u := (k - e) / k;
    SignOfFactor(1.0 - u, k);
    assert (1.0 - u) * k == e;
  }

  /** On plain numbers: e = (q - 1)^2, k = 1 + q^2, s0 * e the gap and h the
      held value. */
  lemma FullRangeCross(s0: real, e: real, k: real, h: real)
    requires s0 > 0.0 && e >= 0.0 && k > 0.0 && 0.0 < h < s0 * k
    ensures (h - s0 * e) / h <= (k - e) / k
    ensures e > 0.0 ==> (h - s0 * e) / h < (k - e) / k
  {
    CrossIdentity(s0, e, k, h);
    ProductOfNonNegatives(e, s0 * k - h);
    SignOfFactor(e, s0 * k - h);
    RatioOrder(h - s0 * e, h, k - e, k);
    RatioOrder(k - e, k, h - s0 * e, h);
  }

  lemma CrossIdentity(s0: real, e: real, k: real, h: real)
    ensures (k - e) * h - (h - s0 * e) * k == e * (s0 * k - h)
  {
  }

  /** The held value never reaches that of the full-range position. */
  lemma HeldBelowFullRange(a: real, b: real, s0: real, q: real, k: real, p: real)
    requires 0.0 < a < b && a <= s0 <= b && p > 0.0 && p == (s0 * q) * (s0 * q) && k == 1.0 + q * q
    ensures Value(a, b, s0, p) < s0 * k
  {
    var u, w := 1.0 / s0, 1.0 / b;
    SignOfFactor(w, b);
    ProductOfNonNegatives(w, p);
    assert u * p == s0 * (q * q) by {
      assert (s0 * q) * (s0 * q) == s0 * (s0 * (q * q));
      assert u * s0 == 1.0;
    }
    assert Value(a, b, s0, p) == u * p - w * p + (s0 - a);
  }

  /** With entry and price in range the concentrated loss is at least as deep
      as the full-range formula for the same price ratio, and strictly deeper
      as soon as the price has moved. */
  lemma DeeperThanFullRange(sqrt: real -> real, entry: real, p: real, lower: real, upper: real, q: real)
    requires IsSqrt(sqrt) && 0.0 < lower < upper && lower <= entry <= upper && lower <= p <= upper
    requires IsRoot(q, p / entry)
    ensures ComputeIl(sqrt, entry, p, lower, upper) <= FullRangeIl(q)
    ensures p != entry ==> ComputeIl(sqrt, entry, p, lower, upper) < FullRangeIl(q)
  {
    var a, b, s0, r, h, v := IlAsRatio(sqrt, entry, p, lower, upper);
    ClampedInside(a, b, s0, entry);
    ClampedInside(a, b, r, p);
    RatioOfRoots(s0, r, q, entry, p);
    InRangeBelowFullRange(a, b, s0, r, q, p, h, v);
  }

  lemma InRangeBelowFullRange(a: real, b: real, s0: real, r: real, q: real, p: real, h: real, v: real)
    requires 0.0 < a < b && a <= s0 <= b && a <= r <= b && p > 0.0 && p == r * r && q >= 0.0 && r == s0 * q
    requires h == Value(a, b, s0, p) > 0.0 && v == Value(a, b, r, p)
    ensures v / h - 1.0 <= FullRangeIl(q)
    ensures q != 1.0 ==> v / h - 1.0 < FullRangeIl(q)
  {
    var e, k := GapAgainstHeld(a, b, s0, r, q, p);
    BelowFromGap(s0, q, e, k, h, v);
  }

  /** The gap is s0 (q - 1)^2, the held value stays below s0 (1 + q^2). */
  lemma GapAgainstHeld(a: real, b: real, s0: real, r: real, q: real, p: real) returns (e: real, k: real)
    requires 0.0 < a < b && a <= s0 <= b && a <= r <= b && p > 0.0 && p == r * r && q >= 0.0 && r == s0 * q
    ensures e == (q - 1.0) * (q - 1.0) && k == 1.0 + q * q
    ensures Gap(a, b, s0, r, p) == s0 * e && Value(a, b, s0, p) < s0 * k
  {
    e, k := (q - 1.0) * (q - 1.0), 1.0 + q * q;
    GapInRange(a, b, s0, r, p);
    GapByRatio(Gap(a, b, s0, r, p), s0, r, q, e);
    HeldBelowFullRange(a, b, s0, q, k, p);
  }

  lemma BelowFromGap(s0: real, q: real, e: real, k: real, h: real, v: real)
    requires s0 > 0.0 && q >= 0.0 && e == (q - 1.0) * (q - 1.0) && k == 1.0 + q * q
    requires h - v == s0 * e && 0.0 < h < s0 * k
    ensures v / h - 1.0 <= FullRangeIl(q)
    ensures q != 1.0 ==> v / h - 1.0 < FullRangeIl(q)
  {
    FullRangeForm(q, q - 1.0, e, k);
    FullRangeCross(s0, e, k, h);
  }

  lemma RatioOfRoots(s0: real, r: real, q: real, entry: real, p: real)
    requires s0 > 0.0 && r > 0.0 && s0 * s0 == entry && r * r == p && entry > 0.0 && IsRoot(q, p / entry)
    ensures r == s0 * q && p == (s0 * q) * (s0 * q)
    ensures q == 1.0 ==> p == entry
  {
    ProductOfNonNegatives(s0, q);
    var ratio := p / entry;
    assert ratio * entry == p;
    RegroupRoots(s0, q, ratio, entry);
    SquareOrder(r, s0 * q);
  }

  lemma RegroupRoots(s0: real, q: real, ratio: real, entry: real)
    requires q * q == ratio && s0 * s0 == entry
    ensures (s0 * q) * (s0 * q) == ratio * entry
  {
    assert (s0 * q) * (s0 * q) == (q * q) * (s0 * s0);
  }

  lemma GapByRatio(d: real, s0: real, r: real, q: real, e: real)
    requires s0 > 0.0 && e == (q - 1.0) * (q - 1.0) && r == s0 * q && GapIs(d, s0, AbsReal(r - s0), AbsReal(r - s0))
    ensures d == s0 * e
  {
    var f := s0 * e;
    SquareOfDistance(r - s0);
    assert r - s0 == s0 * (q - 1.0);
    assert (r - s0) * (r - s0) == (s0 * (q - 1.0)) * (s0 * (q - 1.0)) == f * s0;
    SignOfFactor(d - f, s0);
    assert (d - f) * s0 == d * s0 - f * s0;
  }

  /** Outside the range the comparison fails for a whole family: entered at or
      above the upper bound, the position is all token B and loses nothing as
      the price rises further, while the full-range formula is negative. */
  lemma FullRangeIsDeeperAboveRange(sqrt: real -> real, entry: real, p: real, lower: real, upper: real, q: real)
    requires IsSqrt(sqrt) && 0.0 < lower < upper <= entry < p && IsRoot(q, p / entry)
    ensures FullRangeIl(q) < ComputeIl(sqrt, entry, p, lower, upper) == 0.0
  {
    var a, b, s0, r, h, v := IlAsRatio(sqrt, entry, p, lower, upper);
    ClampedInside(a, b, s0, entry);
    ClampedInside(a, b, r, p);
    assert v / h == 1.0;
    assert (p / entry) * entry == p;
    SignOfFactor(p / entry - 1.0, entry);
    FullRangeForm(q, q - 1.0, (q - 1.0) * (q - 1.0), 1.0 + q * q);
  }

  // ---------------------------------------------------------------------
  // Units
  // ---------------------------------------------------------------------

  lemma RootScales(c: real, s: real, t: real, m: real, p: real)
    requires c > 0.0 && IsRoot(c, m) && IsRoot(s, p) && IsRoot(t, m * p)
    ensures t == c * s
  {
    ProductOfNonNegatives(c, s);
    assert (c * s) * (c * s) == (c * c) * (s * s);
    SquareOrder(t, c * s);
  }

  lemma ValueScales(c: real, m: real, a: real, b: real, s: real, p: real)
    requires c > 0.0 && m == c * c && 0.0 < a < b && a <= s <= b
    requires 0.0 < c * a < c * b && c * a <= c * s <= c * b
    ensures Value(c * a, c * b, c * s, m * p) == c * Value(a, b, s, p)
  {
    ScaledReciprocal(c, s);
    ScaledReciprocal(c, b);
    var u, w, u', w' := 1.0 / s, 1.0 / b, 1.0 / (c * s), 1.0 / (c * b);
    assert (u' - w') * (m * p) == ((u' * c) * c - (w' * c) * c) * p;
    assert (u' * c) * c - (w' * c) * c == c * (u - w);
    assert (c * (u - w)) * p == c * ((u - w) * p);
  }

  lemma ScaledReciprocal(c: real, s: real)
    requires c > 0.0 && s > 0.0 && c * s > 0.0
    ensures (1.0 / (c * s)) * c == 1.0 / s
  {
    var t, u := 1.0 / (c * s), 1.0 / s;
    assert t * (c * s) == 1.0 && u * s == 1.0;
    SignOfFactor(t * c - u, s);
    assert (t * c - u) * s == t * (c * s) - u * s;
  }

  lemma ClampedRootScales(c: real, m: real, a: real, b: real, s: real, p: real, a': real, b': real, s': real, p': real)
    requires c > 0.0 && c * c == m && 0.0 < a < b && 0.0 < a' < b' && a' == c * a && b' == c * b && p' == m * p
    requires ClampedRoot(a, b, s, p) && ClampedRoot(a', b', s', p')
    ensures s' == c * s
  {
    ScaledIsClamped(c, m, a, b, s, p, c * s);
    ClampedOrder(a', b', c * s, p', s', p');
    ClampedOrder(a', b', s', p', c * s, p');
  }

  lemma ScaledIsClamped(c: real, m: real, a: real, b: real, s: real, p: real, t: real)
    requires c > 0.0 && c * c == m && 0.0 < a < b && ClampedRoot(a, b, s, p) && t == c * s
    ensures ClampedRoot(c * a, c * b, t, m * p)
  {
    SquareScales(c, m, s);
    ScaleOrder(a, s, c);
    ScaleOrder(s, b, c);
    SignOfFactor(c, c);
    if s * s != p {
      if s == a && p <= a * a {
        ScaleOrder(p, a * a, m);
      } else {
        ScaleOrder(b * b, p, m);
      }
    }
  }

  lemma SquareScales(c: real, m: real, s: real)
    requires c * c == m
    ensures (c * s) * (c * s) == (s * s) * m
  {
    assert (c * s) * (c * s) == (c * c) * (s * s);
  }

  /** The loss does not depend on the price unit: rescaling all four prices by
      one positive factor (raw to UI prices, say) leaves it unchanged. */
  lemma IlIsUnitFree(sqrt: real -> real, m: real, entry: real, p: real, lower: real, upper: real)
    requires IsSqrt(sqrt) && Proper(entry, p, lower, upper) && p > 0.0 && m > 0.0
    ensures ComputeIl(sqrt, m * entry, m * p, m * lower, m * upper) == ComputeIl(sqrt, entry, p, lower, upper)
  {
    SignOfFactor(m, entry);
    SignOfFactor(m, p);
    SignOfFactor(m, lower);
    ScaleStrictOrder(lower, upper, m);
    RescaledIl(sqrt, m, entry, p, lower, upper, m * entry, m * p, m * lower, m * upper);
  }

  lemma FactorRoot(sqrt: real -> real, m: real) returns (c: real)
    requires IsSqrt(sqrt) && m > 0.0
    ensures c > 0.0 && IsRoot(c, m)
  {
    c := sqrt(m);
    RootsOrdered(0.0, c, 0.0, m);
  }

  lemma RescaledIl(sqrt: real -> real, m: real, entry: real, p: real, lower: real, upper: real,
                   entry': real, p': real, lower': real, upper': real)
    requires IsSqrt(sqrt) && Proper(entry, p, lower, upper) && p > 0.0 && m > 0.0
    requires entry' == m * entry && p' == m * p && lower' == m * lower && upper' == m * upper
    requires Proper(entry', p', lower', upper') && p' > 0.0
    ensures ComputeIl(sqrt, entry', p', lower', upper') == ComputeIl(sqrt, entry, p, lower, upper)
  {
    var c := FactorRoot(sqrt, m);
    var a, b, s0, r, h, v := IlAsRatio(sqrt, entry, p, lower, upper);
    var a', b', s0', r', h', v' := IlAsRatio(sqrt, entry', p', lower', upper');
    PositionScales(c, m, entry, p, lower, upper, a, b, s0, r, a', b', s0', r', entry', p', lower', upper');
    RatioScales(c, v, h, v', h');
  }

  /** Both portfolios scale by the root of the price factor. */
  lemma PositionScales(c: real, m: real, entry: real, p: real, lower: real, upper: real, a: real, b: real, s0: real, r: real,
                       a': real, b': real, s0': real, r': real, entry': real, p': real, lower': real, upper': real)
    requires c > 0.0 && IsRoot(c, m) && 0.0 < a < b && 0.0 < a' < b'
    requires entry' == m * entry && p' == m * p && lower' == m * lower && upper' == m * upper
    requires IsRoot(a, lower) && IsRoot(b, upper) && ClampedRoot(a, b, s0, entry) && ClampedRoot(a, b, r, p)
    requires IsRoot(a', lower') && IsRoot(b', upper') && ClampedRoot(a', b', s0', entry') && ClampedRoot(a', b', r', p')
    ensures Value(a', b', s0', p') == c * Value(a, b, s0, p)
    ensures Value(a', b', r', p') == c * Value(a, b, r, p)
  {
    RootScales(c, a, a', m, lower);
    RootScales(c, b, b', m, upper);
    ClampedRootScales(c, m, a, b, s0, entry, a', b', s0', entry');
    ClampedRootScales(c, m, a, b, r, p, a', b', r', p');
    ValueScales(c, m, a, b, s0, p);
    ValueScales(c, m, a, b, r, p);
  }

  lemma RatioScales(c: real, v: real, h: real, v': real, h': real)
    requires c > 0.0 && h > 0.0 && h' > 0.0 && v' == c * v && h' == c * h
    ensures v' / h' == v / h
  {
    var x, y := v' / h', v / h;
    assert x * h' == v' && y * h == v;
    SignOfFactor(x - y, h');
    assert (x - y) * h' == x * h' - c * (y * h);
  }
}
