/** The centred rebalance plan (src/execution/rebalance.rs) and how it interacts
    with the signal: a plan contains the price, replanning is idempotent, and
    plan plus signal cannot thrash. */
module RebalancePlan {
  import opened Numerics
  import opened Signal
  import opened Ticks

  datatype Range = Range(lower: int, upper: int)

  function Saturate(x: int): i32 {
    if x < I32_MIN then I32_MIN else if x > I32_MAX then I32_MAX else x
  }

  function Wrap(x: int): i32 {
    (x - I32_MIN) % 0x1_0000_0000 + I32_MIN
  }

  /** Floor-align to the spacing with the Euclidean remainder; the subtraction
      is plain i32 arithmetic, so it wraps below I32_MIN. */
  function Align(t: i32, spacing: i32): i32
    requires spacing >= 1
  {
    Wrap(t - t % spacing)
  }

  /** The two bounds of `build_rebalance_plan`. */
  function BuildRebalancePlan(currentTick: i32, tickLower: i32, tickUpper: i32, tickSpacing: i32): Range {
    var spacing := if tickSpacing > 1 then tickSpacing else 1;
    var gap := Saturate(tickUpper - tickLower);
    var width := if gap > spacing then gap else spacing;
    var half := width / 2;
    var lower0 := Align(Saturate(currentTick - half), spacing);
    var upper0 := Saturate(lower0 + width);
    var upper := if upper0 <= currentTick then Saturate(Align(currentTick, spacing) + spacing) else upper0;
    var lower := if lower0 > currentTick then Align(currentTick, spacing) else lower0;
    Range(lower, upper)
  }

  /** The width a plan works with: the old width, but at least one spacing. */
  function PlanWidth(r: Range, spacing: int): int {
    if r.upper - r.lower > spacing then r.upper - r.lower else spacing
  }

  /** Bounds that can be passed back to the planner without i32 saturation. */
  predicate Plannable(r: Range) {
    -0x1000_0000 <= r.lower <= 0x1000_0000 && -0x1000_0000 <= r.upper <= 0x1000_0000
  }

  /** The plan without machine-integer noise. */
  function Centred(c: int, width: int, spacing: int): Range
    requires spacing >= 1
  {
    var lower := (c - width / 2) - (c - width / 2) % spacing;
    var upper := if lower + width <= c then c - c % spacing + spacing else lower + width;
    Range(lower, upper)
  }

  lemma WrapIsIdentity(x: int)
    requires I32_MIN <= x <= I32_MAX
    ensures Wrap(x) == x
  {
  }

  lemma AlignIsFloor(t: i32, spacing: i32)
    requires OnChainSpacing(spacing) && I32_MIN + MAX_SPACING <= t
    ensures Align(t, spacing) == t - t % spacing
    ensures t - spacing < t - t % spacing <= t
  {
    WrapIsIdentity(t - t % spacing);
  }

  lemma LowerIsFloor(c: i32, width: int, spacing: i32)
    requires OnChain(c) && OnChainSpacing(spacing) && 0 <= width <= 0x2000_0000 + MAX_SPACING
    ensures var start := c - width / 2;
            && Align(Saturate(start), spacing) == start - start % spacing
            && -0x1100_0000 - MAX_SPACING <= start - start % spacing <= c
  {
    AlignIsFloor(c - width / 2, spacing);
  }

  /** On every on-chain tick the saturating and wrapping arithmetic is exact and
      the "lower bound above the price" repair branch is never taken. */
  lemma PlanIsCentred(c: i32, r: Range, spacing: i32)
    requires OnChain(c) && OnChainSpacing(spacing) && Plannable(r)
    ensures BuildRebalancePlan(c, r.lower, r.upper, spacing) == Centred(c, PlanWidth(r, spacing), spacing)
  {
    LowerIsFloor(c, PlanWidth(r, spacing), spacing);
    AlignIsFloor(c, spacing);
  }

  predicate Aligned(t: int, spacing: int)
    requires spacing >= 1
  {
    t % spacing == 0
  }

  lemma FloorAligns(t: int, spacing: int)
    requires spacing >= 1
    ensures Aligned(t - t % spacing, spacing)
    ensures Aligned(t - t % spacing + spacing, spacing)
  {
    var q := t / spacing;
    MultipleHasNoRemainder(q, spacing);
    MultipleHasNoRemainder(q + 1, spacing);
    assert t - t % spacing == q * spacing;
    assert t - t % spacing + spacing == (q + 1) * spacing;
  }

  // ---------------------------------------------------------------------
  // What one plan guarantees
  // ---------------------------------------------------------------------

  /** The price is inside the planned range, for every i32 input whose own
      alignment does not wrap: saturation of the width or of either bound, and
      even a wrapped lower bound, are repaired. */
  lemma PlanContainsPrice(c: i32, tickLower: i32, tickUpper: i32, tickSpacing: i32)
    requires c < I32_MAX
    requires c - c % (if tickSpacing > 1 then tickSpacing else 1) >= I32_MIN
    ensures var plan := BuildRebalancePlan(c, tickLower, tickUpper, tickSpacing);
            plan.lower <= c < plan.upper
  {
    var spacing := if tickSpacing > 1 then tickSpacing else 1;
    WrapIsIdentity(c - c % spacing);
  }

  /** The shifted range reaches past the price: the price lies at least half a
      width above its grid point, or less than width - spacing above it. */
  predicate Reaches(c: int, width: int, spacing: int)
    requires spacing >= 1
  {
    c % spacing >= width / 2 || c % spacing < width - spacing
  }

  /** The lower bound is aligned. The width is kept exactly when the shifted range
      reaches past the price, always from two spacings on, and then the upper bound
      is aligned with the width; otherwise the plan is two aligned spacings wide. */
  lemma PlanKeepsShape(c: i32, r: Range, spacing: i32)
    requires OnChain(c) && OnChainSpacing(spacing) && Plannable(r)
    ensures var plan := BuildRebalancePlan(c, r.lower, r.upper, spacing);
            var width := PlanWidth(r, spacing);
            && Aligned(plan.lower, spacing)
            && (Aligned(plan.upper, spacing) <==> Aligned(width, spacing) || !Reaches(c, width, spacing))
            && (width >= 2 * spacing ==> Reaches(c, width, spacing))
            && plan.upper - plan.lower == if Reaches(c, width, spacing) then width else 2 * spacing
  {
    PlanIsCentred(c, r, spacing);
    CentredKeepsShape(c, PlanWidth(r, spacing), spacing);
  }

  /** Where the plan lies: its lower bound is the grid point at or below the price
      less half the width. */
  lemma PlanPosition(c: i32, r: Range, spacing: i32)
    requires OnChain(c) && OnChainSpacing(spacing) && Plannable(r)
    ensures var lower, width := BuildRebalancePlan(c, r.lower, r.upper, spacing).lower, r.upper - r.lower;
            IsFloor(lower, c - (if width >= spacing then width else spacing) / 2, spacing)
  {
    PlanIsCentred(c, r, spacing);
    CentredPosition(c, PlanWidth(r, spacing), spacing);
  }

  /** `lower` is the grid point at or below t. */
  predicate IsFloor(lower: int, t: int, spacing: int)
    requires spacing >= 1
  {
    lower % spacing == 0 && lower <= t < lower + spacing
  }

  lemma CentredPosition(c: int, width: int, spacing: int)
    requires spacing >= 1
    ensures IsFloor(Centred(c, width, spacing).lower, c - width / 2, spacing)
  {
    FloorAligns(c - width / 2, spacing);
  }

  /** So the old width is preserved, as documented, exactly when it is at least one
      spacing and the shifted range reaches past the price. */
  lemma WidthPreservedIff(c: i32, r: Range, spacing: i32)
    requires OnChain(c) && OnChainSpacing(spacing) && Plannable(r)
    ensures var plan, width := BuildRebalancePlan(c, r.lower, r.upper, spacing), r.upper - r.lower;
            plan.upper - plan.lower == width <==> width >= spacing && Reaches(c, width, spacing)
  {
    PlanKeepsShape(c, r, spacing);
  }

  lemma CentredKeepsShape(c: int, width: int, spacing: int)
    requires 1 <= spacing <= width
    ensures var plan := Centred(c, width, spacing);
            && Aligned(plan.lower, spacing)
            && (Aligned(plan.upper, spacing) <==> Aligned(width, spacing) || !Reaches(c, width, spacing))
            && (width >= 2 * spacing ==> Reaches(c, width, spacing))
            && plan.upper - plan.lower == if Reaches(c, width, spacing) then width else 2 * spacing
  {
    var start := c - width / 2;
    FloorAligns(start, spacing);
    FloorAligns(c, spacing);
    ShiftAligns(start - start % spacing, width, spacing);
    ReachesPastPrice(c, width, spacing);
    if start - start % spacing + width <= c {
      NarrowRangeStraddles(c, width, spacing);
    }
  }

  /** `Reaches` is about the shifted range. */
  lemma ReachesPastPrice(c: int, width: int, spacing: int)
    requires 1 <= spacing <= width
    ensures var start := c - width / 2; Reaches(c, width, spacing) <==> start - start % spacing + width > c
  {
    var start, d := c - width / 2, c % spacing;
    var q := c / spacing;
    if width < 2 * spacing {
      if d >= width / 2 {
        QuotientIs(start, spacing, q, d - width / 2);
      } else {
        QuotientIs(start, spacing, q - 1, d - width / 2 + spacing);
      }
    }
  }

  lemma ShiftAligns(x: int, width: int, m: int)
    requires m >= 1 && Aligned(x, m)
    ensures Aligned(x + width, m) <==> Aligned(width, m)
  {
    assert x + width == width + (x / m) * m;
    ModDropsMultiple(width, x / m, m);
  }

  /** When the shifted range misses the price, it is narrower than two spacings
      and its lower bound is the grid point just below the price's own. */
  lemma NarrowRangeStraddles(c: int, width: int, spacing: int)
    requires 1 <= spacing <= width
    requires var start := c - width / 2; start - start % spacing + width <= c
    ensures width < 2 * spacing
    ensures var start := c - width / 2; start - start % spacing == c - c % spacing - spacing
  {
    var start := c - width / 2;
    var gap := c / spacing - start / spacing;
    assert (c - c % spacing) - (start - start % spacing) == gap * spacing by {
      assert c - c % spacing == (c / spacing) * spacing;
      assert start - start % spacing == (start / spacing) * spacing;
    }
    MultipleIsFar(gap, spacing);
    MultipleIsFar(gap - 1, spacing);
    assert (gap - 1) * spacing == gap * spacing - spacing;
  }

  lemma CentredIsIdempotent(c: int, width: int, spacing: int)
    requires 1 <= spacing <= width
    ensures Centred(c, PlanWidth(Centred(c, width, spacing), spacing), spacing) == Centred(c, width, spacing)
  {
    var start := c - width / 2;
    if start - start % spacing + width <= c {
      NarrowRangeStraddles(c, width, spacing);
      ModDropsMultiple(c, -1, spacing);
    }
  }

  /** A plan for on-chain bounds stays far from the i32 limits. */
  lemma PlanIsPlannable(c: i32, r: Range, spacing: i32)
    requires OnChain(c) && OnChainSpacing(spacing) && OnChain(r.lower) && OnChain(r.upper)
    ensures Plannable(BuildRebalancePlan(c, r.lower, r.upper, spacing))
  {
    PlanIsCentred(c, r, spacing);
    var start := c - PlanWidth(r, spacing) / 2;
    assert 0 <= start % spacing < spacing && 0 <= c % spacing < spacing;
  }

  /** Replanning at the same tick changes nothing. */
  lemma ReplanIsIdempotent(c: i32, r: Range, spacing: i32)
    requires OnChain(c) && OnChainSpacing(spacing) && OnChain(r.lower) && OnChain(r.upper)
    ensures var plan := BuildRebalancePlan(c, r.lower, r.upper, spacing);
            Plannable(plan) && BuildRebalancePlan(c, plan.lower, plan.upper, spacing) == plan
  {
    PlanIsPlannable(c, r, spacing);
    PlanIsCentred(c, r, spacing);
    PlanIsCentred(c, Centred(c, PlanWidth(r, spacing), spacing), spacing);
    CentredIsIdempotent(c, PlanWidth(r, spacing), spacing);
  }

  // ---------------------------------------------------------------------
  // Plan plus signal
  // ---------------------------------------------------------------------

  /** Largest distance to the closer bound at which the signal can fire: the
      near-edge distance, but never below "just outside" while the out-of-range
      switch is on. */
  function TriggerEdge(config: RebalanceConfig): int {
    if config.rebalanceOutOfRange && config.nearEdgeTicks < -1 then -1 else config.nearEdgeTicks
  }

  /** A planned range with its price, wide enough that the trigger is away. */
  ghost predicate WideEnough(width: int, spacing: int, config: RebalanceConfig) {
    && OnChainSpacing(spacing)
    && spacing < width <= 2 * MAX_TICK
    && width / 2 >= TriggerEdge(config) + spacing
    && width >= 2 * spacing
  }

  /** Ticks the price must travel after a plan before the signal can fire. */
  function Clearance(width: int, spacing: int, config: RebalanceConfig): int {
    width / 2 - spacing - TriggerEdge(config) + 1
  }

  /** Distance left until the signal can fire. */
  function Slack(c: int, r: Range, config: RebalanceConfig): int {
    EdgeDistance(c, r.lower, r.upper) - TriggerEdge(config)
  }

  /** Every plan restores the full clearance, so the signal holds right after
      it whatever the P&L. */
  lemma PlanThenHold(c: i32, r: Range, spacing: i32, config: RebalanceConfig, netPnlUsd: real)
    requires OnChain(c) && Plannable(r) && WideEnough(r.upper - r.lower, spacing, config)
    ensures var width := r.upper - r.lower;
            var plan := BuildRebalancePlan(c, r.lower, r.upper, spacing);
            && Slack(c, plan, config) >= Clearance(width, spacing, config) >= 1
            && plan.upper - plan.lower == width && Plannable(plan)
            && ShouldRebalance(c, plan.lower, plan.upper, netPnlUsd, config).Hold?
  {
    PlanIsCentred(c, r, spacing);
    var start := c - (r.upper - r.lower) / 2;
    assert 0 <= start % spacing < spacing;
  }

  /** One observation of the watch loop: pool tick and net P&L. */
  datatype Observation = Observation(tick: int, netPnlUsd: real)

  ghost predicate AllOnChain(path: seq<Observation>) {
    forall i | 0 <= i < |path| :: OnChain(path[i].tick)
  }

  /** Where the signal fires along a path when every plan is applied. */
  function Fired(r: Range, path: seq<Observation>, spacing: i32, config: RebalanceConfig): seq<bool>
    requires AllOnChain(path) && Plannable(r)
    requires WideEnough(r.upper - r.lower, spacing, config)
    decreases |path|
  {
    if path == [] then []
    else
      var o := path[0];
      if ShouldRebalance(o.tick, r.lower, r.upper, o.netPnlUsd, config).Rebalance? then
        PlanThenHold(o.tick, r, spacing, config, o.netPnlUsd);
        [true] + Fired(BuildRebalancePlan(o.tick, r.lower, r.upper, spacing), path[1..], spacing, config)
      else
        [false] + Fired(r, path[1..], spacing, config)
  }

  function Count(fired: seq<bool>): nat {
    if fired == [] then 0 else (if fired[0] then 1 else 0) + Count(fired[1..])
  }

  /** `cost` charged once per firing. */
  function Charge(fired: seq<bool>, cost: int): int {
    if fired == [] then 0 else (if fired[0] then cost else 0) + Charge(fired[1..], cost)
  }

  lemma {:induction false} ChargeIsProduct(fired: seq<bool>, cost: int)
    ensures Charge(fired, cost) == Count(fired) * cost
  {
    if fired != [] {
      ChargeIsProduct(fired[1..], cost);
    }
  }

  /** Total tick movement from `c` along the path. */
  function Movement(c: int, path: seq<Observation>): nat
    decreases |path|
  {
    if path == [] then 0 else Abs(path[0].tick - c) + Movement(path[0].tick, path[1..])
  }

  /** The signal can fire only once the slack is used up, and slack is used up
      no faster than the price moves. */
  lemma SignalSpendsSlack(c: int, o: Observation, r: Range, config: RebalanceConfig)
    ensures Slack(o.tick, r, config) >= Slack(c, r, config) - Abs(o.tick - c)
    ensures ShouldRebalance(o.tick, r.lower, r.upper, o.netPnlUsd, config).Rebalance? ==> Slack(o.tick, r, config) <= 0
  {
    SignalMeaning(o.tick, r.lower, r.upper, o.netPnlUsd, config);
  }

  /** Clearance still missing, to be charged to the next rebalance. */
  function Debt(slack: int, clearance: int): nat {
    if slack < clearance then clearance - slack else 0
  }

  /** Movement pays for what it takes from the slack; a firing uses it up. */
  lemma DebtStep(before: int, after: int, move: nat, clearance: int)
    requires after >= before - move
    ensures Debt(after, clearance) <= move + Debt(before, clearance)
    ensures after <= 0 ==> clearance <= move + Debt(before, clearance)
  {
  }

  lemma ChargeHead(fired: bool, rest: seq<bool>, cost: int)
    ensures Charge([fired] + rest, cost) == (if fired then cost else 0) + Charge(rest, cost)
  {
    assert ([fired] + rest)[1..] == rest;
  }

  /** The range in force after the first observation: a plan with full
      clearance after a firing, otherwise the same. */
  lemma FiredHead(r: Range, path: seq<Observation>, spacing: i32, config: RebalanceConfig)
    returns (fires: bool, next: Range)
    requires AllOnChain(path) && Plannable(r) && WideEnough(r.upper - r.lower, spacing, config) && path != []
    ensures fires == ShouldRebalance(path[0].tick, r.lower, r.upper, path[0].netPnlUsd, config).Rebalance?
    ensures Plannable(next) && next.upper - next.lower == r.upper - r.lower
    ensures Fired(r, path, spacing, config) == [fires] + Fired(next, path[1..], spacing, config)
    ensures if fires then Slack(path[0].tick, next, config) >= Clearance(r.upper - r.lower, spacing, config) else next == r
  {
    fires := ShouldRebalance(path[0].tick, r.lower, r.upper, path[0].netPnlUsd, config).Rebalance?;
    next := r;
    if fires {
      PlanThenHold(path[0].tick, r, spacing, config, path[0].netPnlUsd);
      next := BuildRebalancePlan(path[0].tick, r.lower, r.upper, spacing);
    }
  }

  lemma MovementHead(c: int, path: seq<Observation>)
    requires path != []
    ensures Movement(c, path) == Abs(path[0].tick - c) + Movement(path[0].tick, path[1..])
  {
  }

  /** What the charges after a plan are bounded by, for a range and a price. */
  predicate Paid(c: int, r: Range, path: seq<Observation>, fired: seq<bool>, clearance: int, config: RebalanceConfig) {
    Charge(fired, clearance) <= Movement(c, path) + Debt(Slack(c, r, config), clearance)
  }

  lemma PaidStep(c: int, r: Range, next: Range, path: seq<Observation>, fires: bool, later: seq<bool>, clearance: int,
                 config: RebalanceConfig)
    requires path != [] && Paid(path[0].tick, next, path[1..], later, clearance, config)
    requires fires == ShouldRebalance(path[0].tick, r.lower, r.upper, path[0].netPnlUsd, config).Rebalance?
    requires if fires then Slack(path[0].tick, next, config) >= clearance else next == r
    ensures Paid(c, r, path, [fires] + later, clearance, config)
  {
    var o := path[0];
    ChargeHead(fires, later, clearance);
    MovementHead(c, path);
    SignalSpendsSlack(c, o, r, config);
    DebtStep(Slack(c, r, config), Slack(o.tick, r, config), Abs(o.tick - c), clearance);
  }

  lemma {:induction false} ChargePaidByMovement(c: int, r: Range, path: seq<Observation>, spacing: i32,
                                                config: RebalanceConfig)
    requires AllOnChain(path) && Plannable(r)
    requires WideEnough(r.upper - r.lower, spacing, config)
    ensures Paid(c, r, path, Fired(r, path, spacing, config), Clearance(r.upper - r.lower, spacing, config), config)
    decreases |path|
  {
    if path != [] {
      var fires, next := FiredHead(r, path, spacing, config);
      ChargePaidByMovement(path[0].tick, next, path[1..], spacing, config);
      var later, clearance := Fired(next, path[1..], spacing, config), Clearance(r.upper - r.lower, spacing, config);
      PaidStep(c, r, next, path, fires, later, clearance, config);
    }
  }

  lemma PaidFromFullSlack(c: int, r: Range, path: seq<Observation>, fired: seq<bool>, clearance: int,
                          config: RebalanceConfig)
    requires Paid(c, r, path, fired, clearance, config) && Slack(c, r, config) >= clearance
    ensures Count(fired) * clearance <= Movement(c, path)
  {
    ChargeIsProduct(fired, clearance);
  }

  /** No thrashing: after a plan at tick `c`, any further path of prices and
      P&L values rebalances at most once per `Clearance` ticks travelled. */
  lemma PlanAndSignalDoNotThrash(c: i32, before: Range, path: seq<Observation>, spacing: i32, config: RebalanceConfig)
    requires OnChain(c) && AllOnChain(path) && Plannable(before)
    requires WideEnough(before.upper - before.lower, spacing, config)
    ensures var plan := BuildRebalancePlan(c, before.lower, before.upper, spacing);
            && Plannable(plan) && WideEnough(plan.upper - plan.lower, spacing, config)
            && Count(Fired(plan, path, spacing, config)) * Clearance(before.upper - before.lower, spacing, config)
               <= Movement(c, path)
  {
    var plan := BuildRebalancePlan(c, before.lower, before.upper, spacing);
    PlanThenHold(c, before, spacing, config, 0.0);
    ChargePaidByMovement(c, plan, path, spacing, config);
    var clearance := Clearance(before.upper - before.lower, spacing, config);
    PaidFromFullSlack(c, plan, path, Fired(plan, path, spacing, config), clearance, config);
  }
}
