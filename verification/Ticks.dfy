/** Tick indices and the price of a tick, 1.0001^t. */
module Ticks {
  import opened Numerics

  /** Whirlpool tick indices and spacings. */
  const MAX_TICK: int := 443636
  const MAX_SPACING: int := 0xFFFF

  predicate OnChain(tick: int) {
    -MAX_TICK <= tick <= MAX_TICK
  }

  predicate OnChainSpacing(spacing: int) {
    1 <= spacing <= MAX_SPACING
  }

  const TICK_BASE := 1.0001

  function Pow(base: real, n: nat): (r: real)
    requires base > 0.0
    ensures r > 0.0
  {
    if n == 0 then 1.0 else base * Pow(base, n - 1)
  }

  function TickPrice(t: int): (p: real)
    ensures p > 0.0
  {
    if t >= 0 then Pow(TICK_BASE, t) else PositiveQuotient(1.0, Pow(TICK_BASE, -t))
  }

  function PositiveQuotient(x: real, m: real): (r: real)
    requires x > 0.0 && m > 0.0
    ensures r > 0.0 && r * m == x
  {
    var r := x / m;
    SignOfFactor(r, m);
    r
  }

  lemma TickPriceStep(t: int)
    ensures TickPrice(t + 1) == TICK_BASE * TickPrice(t)
  {
    if t < 0 {
      var m := Pow(TICK_BASE, -t - 1);
      var p, q := TickPrice(t), TickPrice(t + 1);
      assert q * m == 1.0 && p * (TICK_BASE * m) == 1.0;
      SignOfFactor(q - TICK_BASE * p, m);
      assert (q - TICK_BASE * p) * m == q * m - p * (TICK_BASE * m);
    }
  }

  /** The price of a tick is 1.0001 to its power. */
  lemma TickPriceMeaning(t: int)
    ensures TickPrice(0) == 1.0 && TickPrice(t + 1) == 1.0001 * TickPrice(t)
  {
    TickPriceStep(t);
  }

  lemma {:induction false} TickPriceOrder(t: int, u: int)
    requires t < u
    ensures TickPrice(t) < TickPrice(u)
    decreases u - t
  {
    TickPriceStep(u - 1);
    if t < u - 1 {
      TickPriceOrder(t, u - 1);
    }
  }

  // ---------------------------------------------------------------------
  // The tick of a price
  // ---------------------------------------------------------------------

  /** `tickOf` is the floor of the logarithm to base 1.0001. */
  ghost predicate IsTickOf(tickOf: real -> int) {
    forall p | p > 0.0 :: TickPrice(tickOf(p)) <= p < TickPrice(tickOf(p) + 1)
  }

  /** `price_to_tick`: the tick of the price, floored to the spacing. */
  function PriceToTick(tickOf: real -> int, price: real, spacing: int): int
    requires spacing != 0
  {
    tickOf(price) / spacing * spacing
  }

  lemma FloorKeepsOrder(t: int, u: int, spacing: int)
    requires spacing > 0 && t <= u
    ensures t / spacing * spacing <= u / spacing * spacing
    ensures u / spacing * spacing <= u < u / spacing * spacing + spacing
  {
    var q, r := t / spacing, u / spacing;
    MultipleIsFar(r - q, spacing);
    assert r * spacing - q * spacing == (r - q) * spacing;
  }

  /** A higher price never has a lower aligned tick. */
  lemma PriceToTickKeepsOrder(tickOf: real -> int, p: real, q: real, spacing: int)
    requires IsTickOf(tickOf) && spacing > 0 && 0.0 < p <= q
    ensures tickOf(p) <= tickOf(q)
    ensures PriceToTick(tickOf, p, spacing) <= PriceToTick(tickOf, q, spacing)
  {
    var t, u := tickOf(p), tickOf(q);
    if u < t && u + 1 < t {
      TickPriceOrder(u + 1, t);
    }
    FloorKeepsOrder(t, u, spacing);
  }

  /** The aligned tick is the one multiple of the spacing whose price bracket of
      one spacing holds the price. */
  lemma PriceToTickBrackets(tickOf: real -> int, price: real, spacing: int)
    requires IsTickOf(tickOf) && spacing > 0 && price > 0.0
    ensures var t := PriceToTick(tickOf, price, spacing);
            t % spacing == 0 && TickPrice(t) <= price < TickPrice(t + spacing)
  {
    var t := PriceToTick(tickOf, price, spacing);
    MultipleHasNoRemainder(tickOf(price) / spacing, spacing);
    FloorKeepsOrder(tickOf(price), tickOf(price), spacing);
    if t < tickOf(price) {
      TickPriceOrder(t, tickOf(price));
    }
    if tickOf(price) + 1 < t + spacing {
      TickPriceOrder(tickOf(price) + 1, t + spacing);
    }
  }
}
