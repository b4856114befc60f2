/** The five tick arrays around the current tick (src/protocols/orca.rs), their
    flattening (src/main.rs, `extract_tick_deltas`), and how far they reach. */
module TickArrays {
  import opened Numerics
  import opened Ticks
  import opened Depth

  const TICK_ARRAY_SIZE := 88

  datatype Tick = Tick(initialized: bool, liquidityNet: int)

  datatype TickArray = TickArray(startTickIndex: int, ticks: seq<Tick>)

  function Span(spacing: int): int {
    spacing * TICK_ARRAY_SIZE
  }

  /** Floor of the tick to the start of its array. */
  function TickArrayStartIndex(tick: int, spacing: nat): int
    requires spacing > 0
  {
    tick / Span(spacing) * Span(spacing)
  }

  /** The arrays found among the given starts, in order; a missing or unreadable
      account is skipped. */
  function Fetched(accounts: map<int, TickArray>, starts: seq<int>): seq<TickArray> {
    if starts == [] then []
    else (if starts[0] in accounts then [accounts[starts[0]]] else []) + Fetched(accounts, starts[1..])
  }

  function WindowStarts(currentTick: int, spacing: nat): seq<int>
    requires spacing > 0
  {
    var centre := TickArrayStartIndex(currentTick, spacing);
    seq(5, o => centre + (o - 2) * Span(spacing))
  }

  lemma {:induction false} FetchedJoins(accounts: map<int, TickArray>, s: seq<int>, t: seq<int>)
    ensures Fetched(accounts, s + t) == Fetched(accounts, s) + Fetched(accounts, t)
  {
    if s == [] {
      assert s + t == t;
    } else {
      assert (s + t)[1..] == s[1..] + t;
      FetchedJoins(accounts, s[1..], t);
    }
  }

  /** `fetch_tick_arrays`; `accounts` holds what the node returns, parsed. */
  method FetchTickArrays(accounts: map<int, TickArray>, currentTick: int, spacing: nat) returns (out: seq<TickArray>)
    requires spacing > 0
    ensures out == Fetched(accounts, WindowStarts(currentTick, spacing))
  {
    var starts := WindowStarts(currentTick, spacing);
    out := [];
    for i := 0 to |starts|
      invariant out == Fetched(accounts, starts[..i])
    {
      assert starts[..i + 1] == starts[..i] + [starts[i]];
      FetchedJoins(accounts, starts[..i], [starts[i]]);
      if starts[i] in accounts {
        out := out + [accounts[starts[i]]];
      }
    }
    assert starts[..|starts|] == starts;
  }

  /** The initialized ticks among the first k of an array. */
  function ArrayDeltas(ta: TickArray, spacing: int, k: nat): seq<TickDelta>
    requires k <= |ta.ticks|
  {
    if k == 0 then [] else ArrayDeltas(ta, spacing, k - 1) + DeltaAt(ta, spacing, k - 1)
  }

  /** The pair of one tick, if it is initialized. */
  function DeltaAt(ta: TickArray, spacing: int, i: nat): seq<TickDelta>
    requires i < |ta.ticks|
  {
    if ta.ticks[i].initialized then [TickDelta(SlotTick(ta, spacing, i), ta.ticks[i].liquidityNet)] else []
  }

  /** Tick of slot i. */
  function SlotTick(ta: TickArray, spacing: int, i: int): int {
    ta.startTickIndex + i * spacing
  }

  function Flattened(arrays: seq<TickArray>, spacing: int): seq<TickDelta> {
    if arrays == [] then []
    else ArrayDeltas(arrays[0], spacing, |arrays[0].ticks|) + Flattened(arrays[1..], spacing)
  }

  lemma {:induction false} FlattenedSnoc(arrays: seq<TickArray>, ta: TickArray, spacing: int)
    ensures Flattened(arrays + [ta], spacing) == Flattened(arrays, spacing) + ArrayDeltas(ta, spacing, |ta.ticks|)
  {
    if arrays == [] {
      assert [ta][1..] == [];
    } else {
      assert (arrays + [ta])[1..] == arrays[1..] + [ta];
      FlattenedSnoc(arrays[1..], ta, spacing);
    }
  }

  /** `extract_tick_deltas`. */
  method ExtractTickDeltas(arrays: seq<TickArray>, spacing: int) returns (out: seq<TickDelta>)
    ensures out == Flattened(arrays, spacing)
  {
    out := [];
    for a := 0 to |arrays|
      invariant out == Flattened(arrays[..a], spacing)
    {
      var ta := arrays[a];
      ghost var before := out;
      for i := 0 to |ta.ticks|
        invariant out == before + ArrayDeltas(ta, spacing, i)
      {
        if ta.ticks[i].initialized {
          out := out + [TickDelta(ta.startTickIndex + i * spacing, ta.ticks[i].liquidityNet)];
        }
      }
      FlattenedSnoc(arrays[..a], ta, spacing);
      assert arrays[..a + 1] == arrays[..a] + [ta];
    }
    assert arrays[..|arrays|] == arrays;
  }

  // ---------------------------------------------------------------------
  // The net liquidity of one tick
  // ---------------------------------------------------------------------

  function NetOf(tick: Tick): int {
    if tick.initialized then tick.liquidityNet else 0
  }

  /** Net liquidity an array stores for tick t; 0 outside it and off its grid. */
  function NetIn(ta: TickArray, spacing: nat, k: nat, t: int): int
    requires spacing > 0 && k <= |ta.ticks|
  {
    var offset := t - ta.startTickIndex;
    if offset % spacing == 0 && 0 <= offset / spacing < k then NetOf(ta.ticks[offset / spacing]) else 0
  }

  /** All accounts of a pool with this spacing: 88 ticks each, stored at their
      own aligned start. */
  ghost predicate WellFormed(accounts: map<int, TickArray>, spacing: nat)
    requires spacing > 0
  {
    forall s | s in accounts ::
      accounts[s].startTickIndex == s && |accounts[s].ticks| == TICK_ARRAY_SIZE && s == TickArrayStartIndex(s, spacing)
  }

  /** Net liquidity the account at `start`, if any, stores for tick t. */
  function NetInAccount(accounts: map<int, TickArray>, start: int, spacing: nat, t: int): int
    requires spacing > 0
  {
    if start in accounts then NetIn(accounts[start], spacing, |accounts[start].ticks|, t) else 0
  }

  /** Net liquidity of tick t in the whole pool. */
  function PoolNet(accounts: map<int, TickArray>, spacing: nat, t: int): int
    requires spacing > 0
  {
    NetInAccount(accounts, TickArrayStartIndex(t, spacing), spacing, t)
  }

  lemma {:induction false} SumsConcatenate(a: seq<TickDelta>, b: seq<TickDelta>, lo: int, hi: int)
    ensures SumIn(a + b, lo, hi) == SumIn(a, lo, hi) + SumIn(b, lo, hi)
  {
    if a == [] {
      assert a + b == b;
    } else {
      assert (a + b)[1..] == a[1..] + b;
      SumsConcatenate(a[1..], b, lo, hi);
    }
  }

  lemma OnGrid(offset: int, spacing: nat, k: int)
    requires spacing > 0
    ensures offset == k * spacing <==> offset % spacing == 0 && offset / spacing == k
  {
    if offset == k * spacing {
      MultipleHasNoRemainder(k, spacing);
    }
  }

  lemma DeltaSum(ta: TickArray, spacing: nat, i: nat, t: int)
    requires i < |ta.ticks|
    ensures SumIn(DeltaAt(ta, spacing, i), t - 1, t)
            == if t == SlotTick(ta, spacing, i) then NetOf(ta.ticks[i]) else 0
  {
    var deltas := DeltaAt(ta, spacing, i);
    if ta.ticks[i].initialized {
      assert deltas[1..] == [];
    }
  }

  /** One more slot adds its net liquidity at its own tick. */
  lemma NetInGrows(ta: TickArray, spacing: nat, k: nat, t: int)
    requires spacing > 0 && k < |ta.ticks|
    ensures NetIn(ta, spacing, 0, t) == 0
    ensures NetIn(ta, spacing, k + 1, t)
            == NetIn(ta, spacing, k, t) + (if t == SlotTick(ta, spacing, k) then NetOf(ta.ticks[k]) else 0)
  {
    OnGrid(t - ta.startTickIndex, spacing, k);
  }

  /** One more slot adds its pair, if any, to the flattened array. */
  lemma OneMoreSlot(ta: TickArray, spacing: nat, k: nat, t: int)
    requires k < |ta.ticks|
    ensures SumIn(ArrayDeltas(ta, spacing, k + 1), t - 1, t)
            == SumIn(ArrayDeltas(ta, spacing, k), t - 1, t) + SumIn(DeltaAt(ta, spacing, k), t - 1, t)
  {
    var whole, rest, last := ArrayDeltas(ta, spacing, k + 1), ArrayDeltas(ta, spacing, k), DeltaAt(ta, spacing, k);
    assert whole == rest + last;
    SumsConcatenate(rest, last, t - 1, t);
  }

  /** The pairs of the first k slots sum up to what those slots store. */
  ghost predicate SumsUp(ta: TickArray, spacing: nat, k: nat, t: int)
    requires spacing > 0 && k <= |ta.ticks|
  {
    SumIn(ArrayDeltas(ta, spacing, k), t - 1, t) == NetIn(ta, spacing, k, t)
  }

  lemma SumsUpStep(ta: TickArray, spacing: nat, k: nat, t: int)
    requires spacing > 0 && k < |ta.ticks| && SumsUp(ta, spacing, k, t)
    ensures SumsUp(ta, spacing, k + 1, t)
  {
    OneMoreSlot(ta, spacing, k, t);
    DeltaSum(ta, spacing, k, t);
    NetInGrows(ta, spacing, k, t);
  }

  lemma {:induction false} ArraySum(ta: TickArray, spacing: nat, k: nat, t: int)
    requires spacing > 0 && k <= |ta.ticks|
    ensures SumsUp(ta, spacing, k, t)
  {
    if k > 0 {
      ArraySum(ta, spacing, k - 1, t);
      SumsUpStep(ta, spacing, k - 1, t);
    }
  }

  /** Net liquidity of tick t over the accounts at the given starts. */
  function NetOver(accounts: map<int, TickArray>, starts: seq<int>, spacing: nat, t: int): int
    requires spacing > 0
  {
    if starts == [] then 0
    else NetInAccount(accounts, starts[0], spacing, t) + NetOver(accounts, starts[1..], spacing, t)
  }

  lemma {:induction false} WindowSum(accounts: map<int, TickArray>, starts: seq<int>, spacing: nat, t: int)
    requires spacing > 0
    ensures SumIn(Flattened(Fetched(accounts, starts), spacing), t - 1, t) == NetOver(accounts, starts, spacing, t)
  {
    if starts != [] {
      WindowSum(accounts, starts[1..], spacing, t);
      var rest := Fetched(accounts, starts[1..]);
      if starts[0] in accounts {
        var ta := accounts[starts[0]];
        assert ([ta] + rest)[1..] == rest;
        SumsConcatenate(ArrayDeltas(ta, spacing, |ta.ticks|), Flattened(rest, spacing), t - 1, t);
        ArraySum(ta, spacing, |ta.ticks|, t);
      } else {
        assert Fetched(accounts, starts) == rest;
      }
    }
  }

  /** Only the array starting at the tick's own start index holds the tick. */
  lemma OwnArrayOnly(accounts: map<int, TickArray>, start: int, spacing: nat, t: int)
    requires spacing > 0 && WellFormed(accounts, spacing) && start != TickArrayStartIndex(t, spacing)
    ensures NetInAccount(accounts, start, spacing, t) == 0
  {
    if start in accounts {
      var k := (t - start) / spacing;
      if (t - start) % spacing == 0 && 0 <= k < TICK_ARRAY_SIZE {
        var q := start / Span(spacing);
        OnGrid(t - start, spacing, k);
        ScaleInt(k, TICK_ARRAY_SIZE - 1, spacing);
        QuotientIs(t, Span(spacing), q, t - start);
      }
    }
  }

  /** The start index is the one multiple of the span at most a span below. */
  lemma StartIsFloor(tick: int, spacing: nat)
    requires spacing > 0
    ensures TickArrayStartIndex(tick, spacing) <= tick < TickArrayStartIndex(tick, spacing) + Span(spacing)
  {
  }

  /** A tick less than three spans above and at most two spans below the centre
      lies in one of the five arrays. */
  lemma WindowHolds(currentTick: int, spacing: nat, t: int)
    requires spacing > 0
    requires var centre := TickArrayStartIndex(currentTick, spacing);
             centre - 2 * Span(spacing) <= t < centre + 3 * Span(spacing)
    ensures var starts := WindowStarts(currentTick, spacing);
            exists o | 0 <= o < 5 :: starts[o] == TickArrayStartIndex(t, spacing)
  {
    var span := Span(spacing);
    var q, c := t / span, currentTick / span;
    StartIsFloor(t, spacing);
    MultipleIsFar(q - c - 3, span);
    MultipleIsFar(q - c + 3, span);
    assert q * span - c * span == (q - c) * span;
    assert (q - c - 3) * span == (q - c) * span - 3 * span;
    assert (q - c + 3) * span == (q - c) * span + 3 * span;
    var o := q - c + 2;
    assert WindowStarts(currentTick, spacing)[o] == c * span + (q - c) * span;
  }

  ghost predicate Distinct(starts: seq<int>) {
    forall i, j | 0 <= i < j < |starts| :: starts[i] != starts[j]
  }

  lemma {:induction false} NothingOver(accounts: map<int, TickArray>, starts: seq<int>, spacing: nat, t: int)
    requires spacing > 0 && WellFormed(accounts, spacing) && TickArrayStartIndex(t, spacing) !in starts
    ensures NetOver(accounts, starts, spacing, t) == 0
  {
    if starts != [] {
      OwnArrayOnly(accounts, starts[0], spacing, t);
      NothingOver(accounts, starts[1..], spacing, t);
    }
  }

  lemma {:induction false} OneOver(accounts: map<int, TickArray>, starts: seq<int>, spacing: nat, t: int)
    requires spacing > 0 && WellFormed(accounts, spacing) && Distinct(starts)
    requires TickArrayStartIndex(t, spacing) in starts
    ensures NetOver(accounts, starts, spacing, t) == PoolNet(accounts, spacing, t)
  {
    if starts[0] == TickArrayStartIndex(t, spacing) {
      NothingOver(accounts, starts[1..], spacing, t);
    } else {
      OwnArrayOnly(accounts, starts[0], spacing, t);
      OneOver(accounts, starts[1..], spacing, t);
    }
  }

  lemma WindowIsDistinct(currentTick: int, spacing: nat)
    requires spacing > 0
    ensures Distinct(WindowStarts(currentTick, spacing))
  {
    var starts := WindowStarts(currentTick, spacing);
    forall i, j | 0 <= i < j < |starts|
      ensures starts[i] != starts[j]
    {
      MultipleIsFar(j - i, Span(spacing));
      assert (j - 2) * Span(spacing) - (i - 2) * Span(spacing) == (j - i) * Span(spacing);
    }
  }

  // ---------------------------------------------------------------------
  // How far the five arrays reach
  // ---------------------------------------------------------------------

  /** A pool: its positions and the tick arrays they leave on chain. */
  datatype Pool = Pool(accounts: map<int, TickArray>, positions: seq<Position>)

  ghost predicate ValidPool(pool: Pool, spacing: nat)
    requires spacing > 0
  {
    && WellFormed(pool.accounts, spacing)
    && ProperPositions(pool.positions)
    && (forall i | 0 <= i < |pool.positions| :: OnChain(pool.positions[i].lower) && OnChain(pool.positions[i].upper))
    && (forall t :: PoolNet(pool.accounts, spacing, t) == NetAt(pool.positions, t))
  }

  /** The ticks the depth and impact commands feed to the distribution. */
  function WindowDeltas(pool: Pool, currentTick: int, spacing: nat): seq<TickDelta>
    requires spacing > 0
  {
    Flattened(Fetched(pool.accounts, WindowStarts(currentTick, spacing)), spacing)
  }

  /** The distribution built from the five arrays is right in every bucket. */
  ghost predicate WindowSuffices(pool: Pool, currentTick: int, spacing: nat, n: nat)
    requires spacing > 0
  {
    var liquidity := Active(pool.positions, currentTick);
    liquidity < TWO_POW_127 ==>
      Faithful(WindowDeltas(pool, currentTick, spacing), pool.positions, liquidity, currentTick, spacing, n)
  }

  /** In a fetched array every tick has its net liquidity exactly once. */
  lemma WindowAgreesAt(pool: Pool, currentTick: int, spacing: nat, t: int)
    requires spacing > 0 && ValidPool(pool, spacing)
    requires TickArrayStartIndex(t, spacing) in WindowStarts(currentTick, spacing)
    ensures SumIn(WindowDeltas(pool, currentTick, spacing), t - 1, t) == NetAt(pool.positions, t)
  {
    var starts := WindowStarts(currentTick, spacing);
    WindowSum(pool.accounts, starts, spacing, t);
    WindowIsDistinct(currentTick, spacing);
    OneOver(pool.accounts, starts, spacing, t);
  }

  lemma WindowAgrees(pool: Pool, currentTick: int, spacing: nat, t: int)
    requires spacing > 0 && ValidPool(pool, spacing)
    requires var centre := TickArrayStartIndex(currentTick, spacing);
             centre - 2 * Span(spacing) <= t < centre + 3 * Span(spacing)
    ensures SumIn(WindowDeltas(pool, currentTick, spacing), t - 1, t) == NetAt(pool.positions, t)
  {
    WindowHolds(currentTick, spacing, t);
    WindowAgreesAt(pool, currentTick, spacing, t);
  }

  const REACH := 2 * TICK_ARRAY_SIZE

  lemma WindowIsEnough(pool: Pool, currentTick: int, spacing: nat, n: nat)
    requires spacing > 0 && ValidPool(pool, spacing) && n <= REACH
    ensures WindowSuffices(pool, currentTick, spacing, n)
  {
    var deltas := WindowDeltas(pool, currentTick, spacing);
    StartIsFloor(currentTick, spacing);
    ScaleInt(n, REACH, spacing);
    forall t | currentTick - n * spacing < t <= currentTick + n * spacing
      ensures SumIn(deltas, t - 1, t) == NetAt(pool.positions, t)
    {
      WindowAgrees(pool, currentTick, spacing, t);
    }
    var liquidity := Active(pool.positions, currentTick);
    if liquidity < TWO_POW_127 {
      DistributionIsActiveLiquidity(deltas, pool.positions, liquidity, currentTick, spacing, n);
    }
  }

  // ---------------------------------------------------------------------
  // Spacings so wide that the five arrays span the chain
  // ---------------------------------------------------------------------

  lemma {:induction false} NoBoundsOffChain(positions: seq<Position>, t: int)
    requires forall i | 0 <= i < |positions| :: OnChain(positions[i].lower) && OnChain(positions[i].upper)
    requires !OnChain(t)
    ensures NetAt(positions, t) == 0
  {
    if positions != [] {
      assert OnChain(positions[0].lower) && OnChain(positions[0].upper);
      NoBoundsOffChain(positions[1..], t);
    }
  }

  /** Outside the window nothing is fetched. */
  lemma OutsideWindow(pool: Pool, currentTick: int, spacing: nat, t: int)
    requires spacing > 0 && ValidPool(pool, spacing)
    requires TickArrayStartIndex(t, spacing) !in WindowStarts(currentTick, spacing)
    ensures SumIn(WindowDeltas(pool, currentTick, spacing), t - 1, t) == 0
  {
    var starts := WindowStarts(currentTick, spacing);
    WindowSum(pool.accounts, starts, spacing, t);
    NothingOver(pool.accounts, starts, spacing, t);
  }

  /** An array longer than half the chain: two arrays hold all on-chain ticks. */
  lemma WideSpansSuffice(pool: Pool, currentTick: int, spacing: nat, n: nat)
    requires spacing > 0 && ValidPool(pool, spacing) && OnChain(currentTick) && Span(spacing) > MAX_TICK
    ensures WindowSuffices(pool, currentTick, spacing, n)
  {
    var deltas := WindowDeltas(pool, currentTick, spacing);
    StartIsFloor(currentTick, spacing);
    forall t | currentTick - n * spacing < t <= currentTick + n * spacing
      ensures SumIn(deltas, t - 1, t) == NetAt(pool.positions, t)
    {
      if OnChain(t) {
        WindowAgrees(pool, currentTick, spacing, t);
      } else if TickArrayStartIndex(t, spacing) in WindowStarts(currentTick, spacing) {
        WindowAgreesAt(pool, currentTick, spacing, t);
      } else {
        OutsideWindow(pool, currentTick, spacing, t);
        NoBoundsOffChain(pool.positions, t);
      }
    }
    var liquidity := Active(pool.positions, currentTick);
    if liquidity < TWO_POW_127 {
      DistributionIsActiveLiquidity(deltas, pool.positions, liquidity, currentTick, spacing, n);
    }
  }

  // ---------------------------------------------------------------------
  // One bucket further
  // ---------------------------------------------------------------------

  /** An array with one initialized tick. */
  function OneTick(start: int, slot: int, net: int): TickArray {
    TickArray(start, seq(TICK_ARRAY_SIZE, i => if i == slot then Tick(true, net) else Tick(false, 0)))
  }

  /** One position over the last slot of the array at 0: its upper bound is the
      first tick of the next array. */
  function JustOutside(spacing: nat): Pool {
    var span := Span(spacing);
    Pool(map[0 := OneTick(0, TICK_ARRAY_SIZE - 1, 1), span := OneTick(span, 0, -1)], [Position(span - spacing, span, 1)])
  }

  lemma OneTickNet(start: int, slot: nat, net: int, spacing: nat, t: int)
    requires spacing > 0 && slot < TICK_ARRAY_SIZE
    ensures NetIn(OneTick(start, slot, net), spacing, TICK_ARRAY_SIZE, t) == if t == start + slot * spacing then net else 0
  {
    OnGrid(t - start, spacing, slot);
  }

  lemma JustOutsideIsWellFormed(spacing: nat)
    requires spacing > 0
    ensures WellFormed(JustOutside(spacing).accounts, spacing)
  {
    MultipleHasNoRemainder(0, Span(spacing));
    MultipleHasNoRemainder(1, Span(spacing));
  }

  lemma JustOutsideNet(spacing: nat, t: int)
    requires spacing > 0
    ensures PoolNet(JustOutside(spacing).accounts, spacing, t) == NetAt(JustOutside(spacing).positions, t)
  {
    var pool, span := JustOutside(spacing), Span(spacing);
    assert pool.positions[1..] == [];
    OneTickNet(0, TICK_ARRAY_SIZE - 1, 1, spacing, t);
    OneTickNet(span, 0, -1, spacing, t);
    StartIsFloor(t, spacing);
    if 0 <= t < span {
      QuotientIs(t, span, 0, t);
    } else if span <= t < 2 * span {
      QuotientIs(t, span, 1, t - span);
    }
  }

  lemma JustOutsideIsValid(spacing: nat)
    requires spacing > 0 && Span(spacing) <= MAX_TICK
    ensures ValidPool(JustOutside(spacing), spacing)
  {
    JustOutsideIsWellFormed(spacing);
    forall t
      ensures PoolNet(JustOutside(spacing).accounts, spacing, t) == NetAt(JustOutside(spacing).positions, t)
    {
      JustOutsideNet(spacing, t);
    }
  }

  lemma OnePosition(p: Position, x: int)
    ensures Active([p], x) == if p.lower <= x < p.upper then p.liquidity else 0
  {
    assert [p][1..] == [];
  }

  /** Seen from just below the array at -Span, only the array at 0 is fetched. */
  lemma OnlyLowerBoundFetched(spacing: nat)
    requires spacing > 0
    ensures Fetched(JustOutside(spacing).accounts, WindowStarts(-Span(spacing) - 1, spacing))
         == [OneTick(0, TICK_ARRAY_SIZE - 1, 1)]
  {
    var accounts, span := JustOutside(spacing).accounts, Span(spacing);
    var starts := WindowStarts(-span - 1, spacing);
    QuotientIs(-span - 1, span, -2, span - 1);
    assert starts == [-4 * span, -3 * span, -2 * span, -span] + [0];
    FetchedJoins(accounts, starts[..4], [0]);
    NothingFetched(accounts, starts[..4]);
    assert starts == starts[..4] + [0];
    assert Fetched(accounts, [0]) == [accounts[0]] + Fetched(accounts, []);
  }

  lemma {:induction false} NothingFetched(accounts: map<int, TickArray>, starts: seq<int>)
    requires forall o | 0 <= o < |starts| :: starts[o] !in accounts
    ensures Fetched(accounts, starts) == []
  {
    if starts != [] {
      NothingFetched(accounts, starts[1..]);
    }
  }

  /** From there the pool looks as if the position had no upper bound. */
  lemma UpperBoundUnseen(spacing: nat, hi: int)
    requires spacing > 0 && hi >= Span(spacing)
    ensures SumIn(WindowDeltas(JustOutside(spacing), -Span(spacing) - 1, spacing), -Span(spacing) - 1, hi) == 1
  {
    var span, seen := Span(spacing), OneTick(0, TICK_ARRAY_SIZE - 1, 1);
    var deltas, open := ArrayDeltas(seen, spacing, TICK_ARRAY_SIZE), Position(span - spacing, hi + 1, 1);
    OnlyLowerBoundFetched(spacing);
    assert WindowDeltas(JustOutside(spacing), -span - 1, spacing) == deltas by {
      assert [seen][1..] == [] && Flattened([], spacing) == [];
      assert deltas + [] == deltas;
    }
    forall t | -span - 1 < t <= hi
      ensures SumIn(deltas, t - 1, t) == NetAt([open], t)
    {
      assert [open][1..] == [];
      ArraySum(seen, spacing, TICK_ARRAY_SIZE, t);
      OneTickNet(0, TICK_ARRAY_SIZE - 1, 1, spacing, t);
    }
    SumIsDifference(deltas, [open], -span - 1, hi);
    OnePosition(open, hi);
    OnePosition(open, -span - 1);
  }

  lemma JustOutsideIsMissed(spacing: nat, n: nat)
    requires spacing > 0 && n > REACH
    ensures !WindowSuffices(JustOutside(spacing), -Span(spacing) - 1, spacing, n)
  {
    var pool, tick := JustOutside(spacing), -Span(spacing) - 1;
    var i := REACH + 1;
    var start := BucketStart(tick, spacing, i);
    assert start == Span(spacing) + spacing - 1;
    UpperBoundUnseen(spacing, start);
    assert pool.positions == [pool.positions[0]];
    OnePosition(pool.positions[0], tick);
    OnePosition(pool.positions[0], start);
    assert LevelAt(WindowDeltas(pool, tick, spacing), 0, tick, spacing, i).liquidity == 1;
  }

  /** The five arrays give the whole pool's answer for every valid pool and every
      on-chain tick exactly up to 176 buckets per side, or at any number when an
      array is longer than half the chain. */
  lemma FiveArraysReach(spacing: nat, n: nat)
    requires spacing > 0
    ensures (forall pool, tick | ValidPool(pool, spacing) && OnChain(tick) :: WindowSuffices(pool, tick, spacing, n))
            <==> n <= REACH || Span(spacing) > MAX_TICK
  {
    if n <= REACH {
      forall pool, tick | ValidPool(pool, spacing) && OnChain(tick)
        ensures WindowSuffices(pool, tick, spacing, n)
      {
        WindowIsEnough(pool, tick, spacing, n);
      }
    } else if Span(spacing) > MAX_TICK {
      forall pool, tick | ValidPool(pool, spacing) && OnChain(tick)
        ensures WindowSuffices(pool, tick, spacing, n)
      {
        WideSpansSuffice(pool, tick, spacing, n);
      }
    } else {
      JustOutsideIsValid(spacing);
      JustOutsideIsMissed(spacing, n);
      SpanBelow(spacing);
    }
  }

  /** MAX_TICK is no multiple of 88, so the tick just below -Span is on chain too. */
  lemma SpanBelow(spacing: nat)
    requires Span(spacing) <= MAX_TICK
    ensures OnChain(-Span(spacing) - 1)
  {
    assert MAX_TICK % TICK_ARRAY_SIZE == 28;
  }
}
