/** The IL ledger both backtest engines keep: IL realized at each rebalance plus
    the IL of the range now open. */
module IlLedger {
  import opened Numerics
  import opened ImpermanentLoss

  /** A range held from its entry price to the price last seen. */
  datatype Segment = Segment(entry: real, exit: real, lower: real, upper: real)

  /** IL in USD of one segment of a position worth `capital`. */
  function SegmentIl(sqrt: real -> real, capital: real, s: Segment): real {
    IlUsd(ComputeIl(sqrt, s.entry, s.exit, s.lower, s.upper), capital)
  }

  function TotalIl(sqrt: real -> real, capital: real, segments: seq<Segment>): real {
    if segments == [] then 0.0
    else TotalIl(sqrt, capital, segments[..|segments| - 1]) + SegmentIl(sqrt, capital, segments[|segments| - 1])
  }

  // ---------------------------------------------------------------------
  // IL of any inputs
  // ---------------------------------------------------------------------

  /** Whatever the prices and bounds, IL is between -100% and 0. */
  lemma IlInRange(sqrt: real -> real, entry: real, current: real, lower: real, upper: real)
    requires IsSqrt(sqrt)
    ensures -1.0 <= ComputeIl(sqrt, entry, current, lower, upper) <= 0.0
  {
    if entry > 0.0 && current >= 0.0 && lower >= 0.0 && upper >= 0.0 && 0.0 < sqrt(lower) < sqrt(upper) {
      RootsOrdered(sqrt(lower), sqrt(upper), lower, upper);
      IlBounds(sqrt, entry, current, lower, upper);
    }
  }

  /** A position just opened has no IL. */
  lemma NoIlAtEntry(sqrt: real -> real, entry: real, lower: real, upper: real)
    ensures ComputeIl(sqrt, entry, entry, lower, upper) == 0.0
  {
    var pa, pb := sqrt(lower), sqrt(upper);
    if entry > 0.0 && lower >= 0.0 && upper >= 0.0 && 0.0 < pa < pb {
      var v := Value(pa, pb, Clamp(sqrt(entry), pa, pb), entry);
      if v > 0.0 {
        assert v / v == 1.0;
      }
    }
  }

  /** A price's root, kept within the roots of the bounds. */
  predicate RootWithin(sqrt: real -> real, price: real, a: real, b: real, s: real) {
    s == if sqrt(price) < a then a else if sqrt(price) > b then b else sqrt(price)
  }

  /** 1/s - 1/b of token A at this price and s - a of token B, worth v. */
  predicate IsWorth(v: real, a: real, b: real, s: real, price: real)
    requires s > 0.0 && b > 0.0
  {
    v == (1.0 / s - 1.0 / b) * price + (s - a)
  }

  lemma ValueIsWorth(a: real, b: real, s: real, price: real)
    requires 0.0 < a < b && a <= s <= b
    ensures IsWorth(Value(a, b, s, price), a, b, s, price)
  {
  }

  /** For proper prices the IL of a segment is what the position is short of holding
      the tokens it started with, for a capital that buys these tokens at the exit
      price: both are x tokens A at the exit price plus y tokens B, from the clamped
      roots of entry and exit. */
  lemma SegmentIlMeaning(sqrt: real -> real, capital: real, s: Segment)
    returns (a: real, b: real, s0: real, s1: real, held: real, kept: real)
    requires IsSqrt(sqrt) && s.entry > 0.0 && s.exit > 0.0 && 0.0 < s.lower < s.upper
    ensures a == sqrt(s.lower) && b == sqrt(s.upper) && 0.0 < a < b
    ensures RootWithin(sqrt, s.entry, a, b, s0) && RootWithin(sqrt, s.exit, a, b, s1) && 0.0 < s0 && 0.0 < s1
    ensures IsWorth(held, a, b, s0, s.exit) && IsWorth(kept, a, b, s1, s.exit) && held > 0.0
    ensures SegmentIl(sqrt, capital, s) * held == capital * (kept - held)
  {
    a, b, s0, s1, held, kept := IlAsRatio(sqrt, s.entry, s.exit, s.lower, s.upper);
    ValueIsWorth(a, b, s0, s.exit);
    ValueIsWorth(a, b, s1, s.exit);
    var il := ComputeIl(sqrt, s.entry, s.exit, s.lower, s.upper);
    LossOfCapital(kept, held, capital, il, SegmentIl(sqrt, capital, s));
  }

  lemma LossOfCapital(kept: real, held: real, capital: real, il: real, usd: real)
    requires held > 0.0 && il == kept / held - 1.0 && usd == il * capital
    ensures usd * held == capital * (kept - held)
  {
    assert il * held == kept - held;
    assert usd * held == capital * (il * held);
  }

  /** Without a positive entry, a non-negative price or a proper range no IL is
      reported. */
  lemma NoIlOutsideDomain(sqrt: real -> real, entry: real, current: real, lower: real, upper: real)
    requires IsSqrt(sqrt) && (entry <= 0.0 || current < 0.0 || lower <= 0.0 || upper <= lower)
    ensures ComputeIl(sqrt, entry, current, lower, upper) == 0.0
  {
    if lower >= 0.0 && upper >= 0.0 {
      RootsOrdered(sqrt(lower), sqrt(upper), lower, upper);
    }
  }

  // ---------------------------------------------------------------------
  // The books
  // ---------------------------------------------------------------------

  /** The ledger's two amounts and its rebalance count describe the segments: all
      but the last are realized, the last is open. */
  ghost predicate Books(sqrt: real -> real, capital: real, realized: real, open: real, rebalances: nat,
                        segments: seq<Segment>)
  {
    && segments != [] && |segments| - 1 == rebalances
    && realized == TotalIl(sqrt, capital, segments[..|segments| - 1])
    && open == SegmentIl(sqrt, capital, segments[|segments| - 1])
  }

  /** The open segment moves to a price. */
  function Moved(segments: seq<Segment>, price: real): (moved: seq<Segment>)
    requires segments != []
    ensures |moved| == |segments|
  {
    segments[|segments| - 1 := segments[|segments| - 1].(exit := price)]
  }

  /** Each segment starts at the price where the previous one ended. */
  ghost predicate Chained(segments: seq<Segment>) {
    forall j | 0 < j < |segments| :: segments[j].entry == segments[j - 1].exit
  }

  lemma NextChained(segments: seq<Segment>, price: real, next: Segment)
    requires segments != [] && Chained(segments)
    ensures Chained(Moved(segments, price))
    ensures next.entry == price ==> Chained(Moved(segments, price) + [next])
  {
  }

  lemma BooksAddUp(sqrt: real -> real, capital: real, realized: real, open: real, rebalances: nat, segments: seq<Segment>)
    requires Books(sqrt, capital, realized, open, rebalances, segments)
    ensures realized + open == TotalIl(sqrt, capital, segments)
  {
  }

  lemma OpeningBooks(sqrt: real -> real, capital: real, s: Segment)
    requires s.entry == s.exit
    ensures Books(sqrt, capital, 0.0, 0.0, 0, [s])
  {
    NoIlAtEntry(sqrt, s.entry, s.lower, s.upper);
    assert [s][..0] == [];
  }

  /** A price without a rebalance re-values the open segment. */
  lemma HoldBooks(sqrt: real -> real, capital: real, realized: real, open: real, rebalances: nat,
                  segments: seq<Segment>, price: real, open': real)
    requires Books(sqrt, capital, realized, open, rebalances, segments)
    requires open' == SegmentIl(sqrt, capital, segments[|segments| - 1].(exit := price))
    ensures Books(sqrt, capital, realized, open', rebalances, Moved(segments, price))
  {
    assert Moved(segments, price)[..|segments| - 1] == segments[..|segments| - 1];
  }

  /** A rebalance realizes the open segment and opens one with no IL. */
  lemma RebalanceBooks(sqrt: real -> real, capital: real, realized: real, open: real, rebalances: nat,
                       segments: seq<Segment>, price: real, open': real, next: Segment)
    requires Books(sqrt, capital, realized, open, rebalances, segments)
    requires open' == SegmentIl(sqrt, capital, segments[|segments| - 1].(exit := price)) && next.entry == next.exit
    ensures Books(sqrt, capital, realized + open', 0.0, rebalances + 1, Moved(segments, price) + [next])
  {
    HoldBooks(sqrt, capital, realized, open, rebalances, segments, price, open');
    var after := Moved(segments, price) + [next];
    assert after[..|after| - 1] == Moved(segments, price);
    NoIlAtEntry(sqrt, next.entry, next.lower, next.upper);
  }

  // ---------------------------------------------------------------------
  // Signs
  // ---------------------------------------------------------------------

  lemma SegmentIlBounds(sqrt: real -> real, capital: real, s: Segment)
    requires IsSqrt(sqrt) && capital >= 0.0
    ensures -capital <= SegmentIl(sqrt, capital, s) <= 0.0
  {
    IlInRange(sqrt, s.entry, s.exit, s.lower, s.upper);
  }

  /** Total IL is never positive and never below minus the capital per segment. */
  lemma {:induction false} TotalIlBounds(sqrt: real -> real, capital: real, segments: seq<Segment>)
    requires IsSqrt(sqrt) && capital >= 0.0
    ensures -Repeated(|segments|, capital) <= TotalIl(sqrt, capital, segments) <= 0.0
  {
    RepeatedOnceMore(0, capital);
    if segments != [] {
      var n := |segments| - 1;
      TotalIlBounds(sqrt, capital, segments[..n]);
      SegmentIlBounds(sqrt, capital, segments[n]);
      RepeatedOnceMore(n, capital);
    }
  }

  /** So both the realized and the reported IL are within the same bounds. */
  lemma BooksBounds(sqrt: real -> real, capital: real, realized: real, open: real, rebalances: nat, segments: seq<Segment>)
    requires IsSqrt(sqrt) && capital >= 0.0 && Books(sqrt, capital, realized, open, rebalances, segments)
    ensures -Repeated(rebalances + 1, capital) <= realized + open <= 0.0
    ensures realized <= 0.0 && open <= 0.0
  {
    TotalIlBounds(sqrt, capital, segments);
    TotalIlBounds(sqrt, capital, segments[..|segments| - 1]);
    SegmentIlBounds(sqrt, capital, segments[|segments| - 1]);
  }
}
