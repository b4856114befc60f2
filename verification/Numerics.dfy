/** Integer widths, powers and the two real functions the analytics code takes
    from its floating-point library. */
module Numerics {

  datatype Option<+T> = None | Some(value: T)

  const TWO_POW_64: int := 0x1_0000_0000_0000_0000
  const TWO_POW_127: int := 0x8000_0000_0000_0000_0000_0000_0000_0000
  const TWO_POW_128: int := 0x1_0000_0000_0000_0000_0000_0000_0000_0000

  const I32_MIN: int := -0x8000_0000
  const I32_MAX: int := 0x7FFF_FFFF

  type u64 = x: int | 0 <= x < TWO_POW_64
  type u128 = x: int | 0 <= x < TWO_POW_128
  type i32 = x: int | I32_MIN <= x <= I32_MAX

  /** `wrapping_sub` on u128. */
  function WrappingSub(a: u128, b: u128): u128 {
    (a - b) % TWO_POW_128
  }

  /** `wrapping_add` on u128. */
  function WrappingAdd(a: u128, b: u128): u128 {
    (a + b) % TWO_POW_128
  }

  function Abs(x: int): nat {
    if x < 0 then -x else x
  }

  function AbsReal(x: real): real {
    if x < 0.0 then -x else x
  }

  function MaxReal(x: real, y: real): real {
    if x >= y then x else y
  }

  function MinReal(x: real, y: real): real {
    if x <= y then x else y
  }

  // ---------------------------------------------------------------------
  // Division with remainder
  // ---------------------------------------------------------------------

  /** Adding a multiple of the modulus does not change a remainder. */
  lemma ModDropsMultiple(x: int, k: int, m: int)
    requires m > 0
    ensures (x + k * m) % m == x % m
  {
    var q, r := x / m, x % m;
    assert x + k * m == (q + k) * m + r;
    QuotientIs(x + k * m, m, q + k, r);
  }

  /** Division with remainder is unique. */
  lemma QuotientIs(x: int, m: int, q: int, r: int)
    requires m > 0 && 0 <= r < m && x == q * m + r
    ensures x / m == q && x % m == r
  {
    var d := x / m - q;
    assert d * m == r - x % m;
    MultipleIsFar(d, m);
  }

  lemma MultipleIsFar(d: int, m: int)
    requires m > 0
    ensures d >= 1 ==> d * m >= m
    ensures d <= -1 ==> d * m <= -m
  {
  }

  lemma MultipleHasNoRemainder(k: int, m: int)
    requires m > 0
    ensures (k * m) % m == 0 && (k * m) / m == k
  {
    QuotientIs(k * m, m, k, 0);
  }

  /** Rounding down twice loses at most one unit against rounding down once. */
  lemma FloorOfSum(x: int, y: int, m: nat)
    requires m > 0
    ensures x / m + y / m <= (x + y) / m <= x / m + y / m + 1
  {
    var r := x % m + y % m;
    if r < m {
      QuotientIs(x + y, m, x / m + y / m, r);
    } else {
      QuotientIs(x + y, m, x / m + y / m + 1, r - m);
    }
  }

  // ---------------------------------------------------------------------
  // Ordered-field facts, one product at a time
  // ---------------------------------------------------------------------

  lemma SignOfFactor(g: real, m: real)
    requires m > 0.0
    ensures g * m > 0.0 <==> g > 0.0
    ensures g * m == 0.0 <==> g == 0.0
    ensures g * m < 0.0 <==> g < 0.0
  {
  }

  lemma ProductOfNonNegatives(x: real, y: real)
    requires x >= 0.0 && y >= 0.0
    ensures x * y >= 0.0
  {
  }

  lemma ScaleOrder(x: real, y: real, m: real)
    requires x <= y && m >= 0.0
    ensures x * m <= y * m
  {
    ProductOfNonNegatives(y - x, m);
    assert (y - x) * m == y * m - x * m;
  }

  lemma ScaleStrictOrder(x: real, y: real, m: real)
    requires x < y && m > 0.0
    ensures x * m < y * m
  {
    SignOfFactor(y - x, m);
    assert (y - x) * m == y * m - x * m;
  }

  lemma SquareOrder(s: real, t: real)
    requires s >= 0.0 && t >= 0.0
    ensures s * s < t * t <==> s < t
    ensures s * s == t * t <==> s == t
    ensures s * s <= t * t <==> s <= t
  {
    assert t * t - s * s == (t - s) * (t + s);
    if s + t > 0.0 {
      SignOfFactor(t - s, t + s);
    }
  }

  lemma RatioOrder(x: real, m: real, y: real, k: real)
    requires m > 0.0 && k > 0.0
    ensures x / m <= y / k <==> x * k <= y * m
  {
    var u, v := x / m, y / k;
    assert u * m == x && v * k == y;
    SignOfFactor(v - u, m * k);
    assert (v - u) * (m * k) == y * m - x * k;
  }

  // ---------------------------------------------------------------------
  // Repeated amounts
  // ---------------------------------------------------------------------

  function Repeated(n: nat, amount: real): real {
    n as real * amount
  }

  lemma RepeatedOnceMore(n: nat, amount: real)
    ensures Repeated(n + 1, amount) == Repeated(n, amount) + amount
    ensures Repeated(0, amount) == 0.0
  {
    assert (n + 1) as real == n as real + 1.0;
    assert (n as real + 1.0) * amount == n as real * amount + amount;
  }
}
