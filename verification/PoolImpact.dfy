/** The impact command from fetched accounts to report (src/main.rs:1816-1886):
    five tick arrays, 16 buckets per side, the walk from the middle bucket up. */
module PoolImpact {
  import opened Numerics
  import opened Ticks
  import opened ImpermanentLoss
  import opened Depth
  import opened TickArrays
  import opened Impact

  const BUCKETS: nat := 16

  /** Bucket i as the whole pool has it: all positions covering its start. */
  function PoolLevel(positions: seq<Position>, currentTick: int, spacing: nat, i: int): LiquidityLevel {
    LiquidityLevel(TickPrice(BucketStart(currentTick, spacing, i) + spacing / 2),
                   Active(positions, BucketStart(currentTick, spacing, i)))
  }

  /** The whole pool's ladder from the current bucket up. */
  function PoolLadder(positions: seq<Position>, currentTick: int, spacing: nat): (ladder: seq<LiquidityLevel>)
    ensures |ladder| == 17
  {
    seq(BUCKETS + 1, i => PoolLevel(positions, currentTick, spacing, i))
  }

  /** What the walk over a ladder reports. */
  ghost predicate Reports(sqrt: real -> real, ladder: seq<LiquidityLevel>, start: real, size: real,
                          target: Option<real>, pct: Option<real>)
    requires IsSqrt(sqrt) && start > 0.0
  {
    var w := Walk(sqrt, ladder, start, size);
    && target == (if w.remaining > 0.0 then None else w.price)
    && (target.Some? <==> pct.Some?)
    && (target.Some? ==> pct.value * start == (target.value - start) * 100.0)
  }

  /** The built level is the whole pool's. */
  lemma WindowLevel(pool: Pool, currentTick: int, spacing: nat, i: nat)
    requires spacing > 0 && ValidPool(pool, spacing) && i <= BUCKETS
    requires Active(pool.positions, currentTick) < TWO_POW_127
    ensures LevelAt(WindowDeltas(pool, currentTick, spacing), Active(pool.positions, currentTick), currentTick, spacing, i)
            == PoolLevel(pool.positions, currentTick, spacing, i)
  {
    WindowIsEnough(pool, currentTick, spacing, BUCKETS);
  }

  /** For every valid pool, price and size the report from the five arrays is the
      one the whole pool's liquidity gives. */
  method ImpactOfPool(sqrt: real -> real, accounts: map<int, TickArray>, ghost positions: seq<Position>,
                      liquidity: u128, currentTick: int, spacing: nat, start: real, size: real)
    returns (target: Option<real>, pct: Option<real>)
    requires IsSqrt(sqrt) && start > 0.0 && spacing > 0 && ValidPool(Pool(accounts, positions), spacing)
    requires liquidity == Active(positions, currentTick) < TWO_POW_127
    ensures Reports(sqrt, PoolLadder(positions, currentTick, spacing), start, size, target, pct)
  {
    var arrays := FetchTickArrays(accounts, currentTick, spacing);
    var deltas := ExtractTickDeltas(arrays, spacing);
    var levels := BuildDistribution(deltas, liquidity, currentTick, spacing, BUCKETS);
    var mid := |levels| / 2;
    assert levels[mid..] == PoolLadder(positions, currentTick, spacing) by {
      forall i | 0 <= i <= BUCKETS
        ensures levels[mid..][i] == PoolLevel(positions, currentTick, spacing, i)
      {
        WindowLevel(Pool(accounts, positions), currentTick, spacing, i);
      }
    }
    target, pct := EstimateImpact(sqrt, levels[mid..], start, size);
  }
}
