/** The IL ledger of the replay across rebalances. */
module ReplayLedger {
  import opened Numerics
  import opened ImpermanentLoss
  import opened IlLedger
  import opened DbReplay

  predicate RebalancedAt(m: RealMath, input: Input, ticks: seq<Row>, i: nat)
    requires input.tickSpacing != 0 && i < |ticks|
  {
    LedgerAfter(m, input, ticks, i + 1).rebalances != LedgerAfter(m, input, ticks, i).rebalances
  }

  /** The segments after k rows, the open one last: each row moves the exit of the
      open segment, a rebalance opens the next one where that one ends. */
  function Segments(m: RealMath, input: Input, ticks: seq<Row>, k: nat): (segments: seq<Segment>)
    requires input.tickSpacing != 0 && k <= |ticks|
    ensures segments != []
  {
    if k == 0 then [Segment(input.entryPrice, input.entryPrice, input.priceLower, input.priceUpper)]
    else
      var price := PriceOf(input, ticks[k - 1]);
      var moved := Moved(Segments(m, input, ticks, k - 1), price);
      if RebalancedAt(m, input, ticks, k - 1) then moved + [NextSegment(input, price)] else moved
  }

  function NextSegment(input: Input, price: real): Segment {
    Segment(price, price, ResetLower(price, input.rangeFactorLower), ResetUpper(price, input.rangeFactorUpper))
  }

  /** The open segment is the ledger's range in force. */
  predicate InForce(b: Bounds, s: Segment) {
    b.entry == s.entry && b.lower == s.lower && b.upper == s.upper
  }

  /** What one settled row does to the ledger, without its formulas. */
  lemma SettledRow(m: RealMath, input: Input, ticks: seq<Row>, i: nat)
    requires input.tickSpacing != 0 && i < |ticks|
    ensures var led, next := LedgerAfter(m, input, ticks, i), LedgerAfter(m, input, ticks, i + 1);
            var price := PriceOf(input, ticks[i]);
            var open := OpenIl(m, input, led.bounds, price);
            && (RebalancedAt(m, input, ticks, i) ==>
                  next.rebalances == led.rebalances + 1 && next.realized == led.realized + open
                  && next.unrealized == 0.0 && InForce(next.bounds, NextSegment(input, price)))
            && (!RebalancedAt(m, input, ticks, i) ==>
                  next.rebalances == led.rebalances && next.realized == led.realized
                  && next.unrealized == open && next.bounds == led.bounds)
  {
  }

  lemma OpenSegmentIl(m: RealMath, input: Input, b: Bounds, s: Segment, price: real)
    requires InForce(b, s)
    ensures SegmentIl(m.sqrt, input.initialValueUsd, s.(exit := price)) == OpenIl(m, input, b, price)
  {
  }

  /** The ledger's books and range agree with the segments. */
  ghost predicate Agrees(m: RealMath, input: Input, led: Ledger, segments: seq<Segment>) {
    && Books(m.sqrt, input.initialValueUsd, led.realized, led.unrealized, led.rebalances, segments)
    && InForce(led.bounds, segments[|segments| - 1])
  }

  lemma {:induction false} LedgerAgrees(m: RealMath, input: Input, ticks: seq<Row>, k: nat)
    requires input.tickSpacing != 0 && k <= |ticks|
    ensures Agrees(m, input, LedgerAfter(m, input, ticks, k), Segments(m, input, ticks, k))
  {
    if k == 0 {
      OpeningBooks(m.sqrt, input.initialValueUsd, Segments(m, input, ticks, 0)[0]);
    } else {
      LedgerAgrees(m, input, ticks, k - 1);
      SettledRow(m, input, ticks, k - 1);
      var led, before := LedgerAfter(m, input, ticks, k - 1), Segments(m, input, ticks, k - 1);
      NextAgrees(m, input, led, LedgerAfter(m, input, ticks, k), before, PriceOf(input, ticks[k - 1]),
                 RebalancedAt(m, input, ticks, k - 1));
    }
  }

  /** Reported IL is the sum of the closed segments plus the open one; there is
      one segment more than rebalances, and each starts where the last ended. */
  lemma IlIsSumOfSegments(m: RealMath, input: Input, ticks: seq<Row>, k: nat)
    requires input.tickSpacing != 0 && k <= |ticks|
    ensures var led, segments := LedgerAfter(m, input, ticks, k), Segments(m, input, ticks, k);
            && Agrees(m, input, led, segments)
            && Il(led) == TotalIl(m.sqrt, input.initialValueUsd, segments)
            && |segments| == led.rebalances + 1 && Chained(segments)
  {
    LedgerAgrees(m, input, ticks, k);
    SegmentsChain(m, input, ticks, k);
    var led := LedgerAfter(m, input, ticks, k);
    BooksAddUp(m.sqrt, input.initialValueUsd, led.realized, led.unrealized, led.rebalances, Segments(m, input, ticks, k));
  }

  lemma NextAgrees(m: RealMath, input: Input, led: Ledger, next: Ledger, before: seq<Segment>, price: real, rebalanced: bool)
    requires Agrees(m, input, led, before)
    requires var open := OpenIl(m, input, led.bounds, price);
             && (rebalanced ==>
                   next.rebalances == led.rebalances + 1 && next.realized == led.realized + open
                   && next.unrealized == 0.0 && InForce(next.bounds, NextSegment(input, price)))
             && (!rebalanced ==>
                   next.rebalances == led.rebalances && next.realized == led.realized
                   && next.unrealized == open && next.bounds == led.bounds)
    ensures Agrees(m, input, next,
                   if rebalanced then Moved(before, price) + [NextSegment(input, price)] else Moved(before, price))
  {
    var open := OpenIl(m, input, led.bounds, price);
    OpenSegmentIl(m, input, led.bounds, before[|before| - 1], price);
    if rebalanced {
      RebalanceBooks(m.sqrt, input.initialValueUsd, led.realized, led.unrealized, led.rebalances, before, price, open,
                     NextSegment(input, price));
    } else {
      HoldBooks(m.sqrt, input.initialValueUsd, led.realized, led.unrealized, led.rebalances, before, price, open);
    }
  }

  lemma {:induction false} SegmentsChain(m: RealMath, input: Input, ticks: seq<Row>, k: nat)
    requires input.tickSpacing != 0 && k <= |ticks|
    ensures Chained(Segments(m, input, ticks, k))
  {
    if k > 0 {
      var price := PriceOf(input, ticks[k - 1]);
      SegmentsChain(m, input, ticks, k - 1);
      NextChained(Segments(m, input, ticks, k - 1), price, NextSegment(input, price));
    }
  }

  /** Total IL is never positive and never below minus the capital per segment. */
  lemma IlNeverPositive(m: RealMath, input: Input, ticks: seq<Row>, k: nat)
    requires IsSqrt(m.sqrt) && input.initialValueUsd >= 0.0
    requires input.tickSpacing != 0 && k <= |ticks|
    ensures var led := LedgerAfter(m, input, ticks, k);
            && -Repeated(led.rebalances + 1, input.initialValueUsd) <= Il(led) <= 0.0
            && led.realized <= 0.0
  {
    IlIsSumOfSegments(m, input, ticks, k);
    var led := LedgerAfter(m, input, ticks, k);
    BooksBounds(m.sqrt, input.initialValueUsd, led.realized, led.unrealized, led.rebalances, Segments(m, input, ticks, k));
  }

  /** Realized IL never increases, and a row that rebalances books exactly the
      open segment, so the reset itself does not change the reported IL. */
  lemma RealizedNeverIncreases(m: RealMath, input: Input, ticks: seq<Row>, k: nat)
    requires IsSqrt(m.sqrt) && input.initialValueUsd >= 0.0
    requires input.tickSpacing != 0 && k < |ticks|
    ensures var led, next := LedgerAfter(m, input, ticks, k), LedgerAfter(m, input, ticks, k + 1);
            var open := OpenIl(m, input, led.bounds, PriceOf(input, ticks[k]));
            && next.realized == led.realized + (if RebalancedAt(m, input, ticks, k) then open else 0.0)
            && next.realized <= led.realized
            && Il(next) == led.realized + open
  {
    SettledRow(m, input, ticks, k);
    var b, price := LedgerAfter(m, input, ticks, k).bounds, PriceOf(input, ticks[k]);
    var s := Segment(b.entry, price, b.lower, b.upper);
    OpenSegmentIl(m, input, b, s, price);
    SegmentIlBounds(m.sqrt, input.initialValueUsd, s);
  }
}
