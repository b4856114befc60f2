/** Grouping the observations of a replay by calendar day. */
module DayRollup {

  /** What one row contributes: its day, price and range test, and the fees and
      IL booked once it is settled. */
  datatype Observation = Observation(date: int, price: real, inRange: bool, fees: real, il: real)

  datatype DayResult = DayResult(day: nat, price: real, inRange: bool, fees: real, il: real, net: real)

  /** Index of the first observation of each day. */
  function DayStarts(obs: seq<Observation>): (starts: seq<nat>)
    ensures obs != [] ==> starts != []
    ensures forall d | 0 <= d < |starts| :: starts[d] < |obs|
    ensures forall d | 0 < d < |starts| :: starts[d - 1] < starts[d]
  {
    if obs == [] then []
    else
      var n := |obs| - 1;
      var starts := DayStarts(obs[..n]);
      if n == 0 || obs[n].date != obs[n - 1].date then starts + [n] else starts
  }

  /** One past the last observation of day d. */
  function DayEnd(obs: seq<Observation>, d: nat): (end: nat)
    requires d < |DayStarts(obs)|
    ensures DayStarts(obs)[d] < end <= |obs|
  {
    if d + 1 < |DayStarts(obs)| then DayStarts(obs)[d + 1] else |obs|
  }

  predicate SawInRange(obs: seq<Observation>, start: nat, end: nat)
    requires end <= |obs|
  {
    exists i | start <= i < end :: obs[i].inRange
  }

  /** Report of the day made of observations start to end: everything but the
      range flag is read off the last one. */
  function DayOf(obs: seq<Observation>, d: nat, start: nat, end: nat): DayResult
    requires start < end <= |obs|
  {
    var last := obs[end - 1];
    DayResult(d + 1, last.price, SawInRange(obs, start, end), last.fees, last.il, last.fees + last.il)
  }

  /** One report per day. */
  function Days(obs: seq<Observation>): (days: seq<DayResult>)
    ensures |days| == |DayStarts(obs)|
    ensures forall d | 0 <= d < |days| :: days[d] == DayOf(obs, d, DayStarts(obs)[d], DayEnd(obs, d))
  {
    seq(|DayStarts(obs)|, d requires 0 <= d < |DayStarts(obs)| => DayOf(obs, d, DayStarts(obs)[d], DayEnd(obs, d)))
  }

  function CountInRange(days: seq<DayResult>): (n: nat)
    ensures n <= |days|
  {
    if days == [] then 0
    else CountInRange(days[..|days| - 1]) + (if days[|days| - 1].inRange then 1 else 0)
  }

  function InRangeDays(days: seq<DayResult>): set<nat> {
    set d: nat | d < |days| && days[d].inRange
  }

  /** It is the number of days in range. */
  lemma {:induction false} CountMeaning(days: seq<DayResult>)
    ensures CountInRange(days) == |InRangeDays(days)|
  {
    if days != [] {
      var n := |days| - 1;
      CountMeaning(days[..n]);
      var before := InRangeDays(days[..n]);
      assert InRangeDays(days) == if days[n].inRange then before + {n} else before;
    }
  }

  /** A day starts exactly at the first observation and wherever the date changes. */
  lemma {:induction false} DayStartsIff(obs: seq<Observation>, i: nat)
    requires i < |obs|
    ensures i in DayStarts(obs) <==> i == 0 || obs[i].date != obs[i - 1].date
  {
    var n := |obs| - 1;
    if i < n {
      DayStartsIff(obs[..n], i);
    }
  }

  lemma {:induction false} StartsAscend(obs: seq<Observation>, d: nat, e: nat)
    requires d < e < |DayStarts(obs)|
    ensures DayStarts(obs)[d] < DayStarts(obs)[e]
    decreases e
  {
    if d < e - 1 {
      StartsAscend(obs, d, e - 1);
    }
  }

  /** Days are maximal runs of equal dates: they cover all observations in order,
      each has a single date, and the next day begins with another one. */
  lemma {:induction false} DaysAreMaximalRuns(obs: seq<Observation>, d: nat, i: nat)
    requires d < |DayStarts(obs)| && DayStarts(obs)[d] <= i < DayEnd(obs, d)
    ensures obs[i].date == obs[DayStarts(obs)[d]].date
    ensures DayStarts(obs)[0] == 0 && DayEnd(obs, |DayStarts(obs)| - 1) == |obs|
    ensures DayEnd(obs, d) < |obs| ==>
              DayEnd(obs, d) == DayStarts(obs)[d + 1] && obs[DayEnd(obs, d)].date != obs[DayEnd(obs, d) - 1].date
    decreases i
  {
    var starts := DayStarts(obs);
    DayStartsIff(obs, 0);
    var z :| 0 <= z < |starts| && starts[z] == 0;
    if z > 0 {
      StartsAscend(obs, 0, z);
    }
    if d + 1 < |starts| {
      DayStartsIff(obs, starts[d + 1]);
    }
    if i > starts[d] {
      if i in starts {
        var e :| 0 <= e < |starts| && starts[e] == i;
        NoStartInside(obs, d, e);
      }
      DayStartsIff(obs, i);
      DaysAreMaximalRuns(obs, d, i - 1);
    }
  }

  lemma NoStartInside(obs: seq<Observation>, d: nat, e: nat)
    requires d < |DayStarts(obs)| && e < |DayStarts(obs)|
    ensures DayStarts(obs)[e] <= DayStarts(obs)[d] || DayStarts(obs)[e] >= DayEnd(obs, d)
  {
    if e < d {
      StartsAscend(obs, e, d);
    } else if d + 1 < e {
      StartsAscend(obs, d + 1, e);
    }
  }

  /** A report is numbered from 1, shows its run's last row, and is in range
      exactly when some row of the run was. */
  lemma DayReport(obs: seq<Observation>, d: nat)
    requires d < |DayStarts(obs)|
    ensures var end := DayEnd(obs, d);
            var r := Days(obs)[d];
            && r.day == d + 1
            && r.price == obs[end - 1].price && r.fees == obs[end - 1].fees && r.il == obs[end - 1].il
            && r.net == r.fees + r.il
            && (r.inRange <==> exists i :: DayStarts(obs)[d] <= i < end && obs[i].inRange)
  {
  }

  /** Equal dates group equally. */
  lemma {:induction false} DatesDecideDays(obs: seq<Observation>, obs': seq<Observation>)
    requires |obs| == |obs'| && forall i | 0 <= i < |obs| :: obs[i].date == obs'[i].date
    ensures DayStarts(obs) == DayStarts(obs')
  {
    if obs != [] {
      DatesDecideDays(obs[..|obs| - 1], obs'[..|obs| - 1]);
    }
  }

  lemma {:induction false} FlagsDecideCount(days: seq<DayResult>, days': seq<DayResult>)
    requires |days| == |days'| && forall d | 0 <= d < |days| :: days[d].inRange == days'[d].inRange
    ensures CountInRange(days) == CountInRange(days')
  {
    if days != [] {
      FlagsDecideCount(days[..|days| - 1], days'[..|days| - 1]);
    }
  }

  // ---------------------------------------------------------------------
  // One more observation
  // ---------------------------------------------------------------------

  function LastStart(obs: seq<Observation>): (start: nat)
    requires obs != []
    ensures start < |obs|
  {
    DayStarts(obs)[|DayStarts(obs)| - 1]
  }

  /** The day that is still growing. */
  function Growing(obs: seq<Observation>): DayResult
    requires obs != []
  {
    DayOf(obs, |DayStarts(obs)| - 1, LastStart(obs), |obs|)
  }

  /** The days that can no longer grow: a change of date completes one. */
  function Completed(obs: seq<Observation>): (days: seq<DayResult>)
    requires obs != []
    ensures |days| == |DayStarts(obs)| - 1
  {
    var n := |obs| - 1;
    if n == 0 then []
    else if obs[n].date != obs[n - 1].date then Completed(obs[..n]) + [Growing(obs[..n])]
    else Completed(obs[..n])
  }

  /** The days are the completed ones and the growing one. */
  lemma {:induction false} DaysSplit(obs: seq<Observation>)
    requires obs != []
    ensures Days(obs) == Completed(obs) + [Growing(obs)]
  {
    var n := |obs| - 1;
    forall d | 0 <= d < |Completed(obs)|
      ensures Completed(obs)[d] == Days(obs)[d]
    {
      CompletedDay(obs, d);
    }
  }

  lemma {:induction false} CompletedDay(obs: seq<Observation>, d: nat)
    requires obs != [] && d < |Completed(obs)|
    ensures Completed(obs)[d] == DayOf(obs, d, DayStarts(obs)[d], DayStarts(obs)[d + 1])
  {
    var n := |obs| - 1;
    if n > 0 {
      var starts := DayStarts(obs[..n]);
      var end := if d + 1 < |starts| then starts[d + 1] else n;
      DayOfPrefix(obs[..n], obs[n], d, starts[d], end);
      assert obs[..n] + [obs[n]] == obs;
      if d < |Completed(obs[..n])| {
        CompletedDay(obs[..n], d);
      }
    }
  }

  lemma NextStarts(obs: seq<Observation>, o: Observation)
    requires obs != []
    ensures o.date == obs[|obs| - 1].date ==> DayStarts(obs + [o]) == DayStarts(obs)
    ensures o.date != obs[|obs| - 1].date ==> DayStarts(obs + [o]) == DayStarts(obs) + [|obs|]
  {
    var all, n := obs + [o], |obs|;
    assert all[..n] == obs && all[n] == o && all[n - 1] == obs[n - 1] && |all| - 1 == n;
  }

  lemma NextLastStart(obs: seq<Observation>, o: Observation)
    requires obs != []
    ensures LastStart(obs + [o]) == if o.date == obs[|obs| - 1].date then LastStart(obs) else |obs|
  {
    NextStarts(obs, o);
  }

  /** A row of the same day completes nothing; a row of another day completes
      the day that was growing. */
  lemma NextCompleted(obs: seq<Observation>, o: Observation)
    requires obs != []
    ensures Completed(obs + [o])
            == if o.date == obs[|obs| - 1].date then Completed(obs) else Completed(obs) + [Growing(obs)]
  {
    var all := obs + [o];
    assert all[..|all| - 1] == obs && all[|all| - 1] == o && all[|all| - 2] == obs[|obs| - 1];
  }

  lemma DayOfPrefix(obs: seq<Observation>, o: Observation, d: nat, start: nat, end: nat)
    requires start < end <= |obs|
    ensures DayOf(obs + [o], d, start, end) == DayOf(obs, d, start, end)
  {
    assert forall i | start <= i < end :: (obs + [o])[i] == obs[i];
  }

  lemma FirstDay(o: Observation)
    ensures LastStart([o]) == 0 && Completed([o]) == []
  {
    assert [o][..0] == [];
    assert DayStarts([o]) == [0];
  }

  // ---------------------------------------------------------------------
  // The accumulators of the single pass
  // ---------------------------------------------------------------------

  /** Finished reports and the accumulators of the current day. */
  datatype Rollup = Rollup(days: seq<DayResult>, daysInRange: nat, currentDate: int, wasInRange: bool)

  /** What the pass remembers of the latest observation. */
  datatype Latest = Latest(price: real, fees: real, il: real)

  ghost predicate RolledUp(obs: seq<Observation>, r: Rollup) {
    && r.daysInRange == CountInRange(r.days)
    && (obs == [] ==> r.days == [] && !r.wasInRange)
    && (obs != [] ==>
          && r.days == Completed(obs) && r.currentDate == obs[|obs| - 1].date
          && r.wasInRange == SawInRange(obs, LastStart(obs), |obs|))
  }

  predicate IsLatest(obs: seq<Observation>, latest: Latest) {
    obs != [] ==> latest == Latest(obs[|obs| - 1].price, obs[|obs| - 1].fees, obs[|obs| - 1].il)
  }

  /** Report the current day from its own last observation. */
  method Flush(ghost obs: seq<Observation>, r: Rollup, latest: Latest) returns (next: Rollup)
    requires obs != [] && RolledUp(obs, r) && IsLatest(obs, latest)
    ensures next.days == Completed(obs) + [Growing(obs)] && next.daysInRange == CountInRange(next.days)
  {
    var daysInRange := r.daysInRange;
    if r.wasInRange {
      daysInRange := daysInRange + 1;
    }
    var day := DayResult(|r.days| + 1, latest.price, r.wasInRange, latest.fees, latest.il, latest.fees + latest.il);
    next := r.(days := r.days + [day], daysInRange := daysInRange);
  }

  /** The range flag carries over one more row. */
  lemma SawNext(obs: seq<Observation>, o: Observation, start: nat)
    requires start <= |obs|
    ensures SawInRange(obs + [o], start, |obs| + 1) <==> SawInRange(obs, start, |obs|) || o.inRange
  {
    var all := obs + [o];
    assert forall i | 0 <= i < |obs| :: all[i] == obs[i];
    assert all[|obs|] == o;
  }

  /** The day boundary and range flag of one row, before the row is settled. */
  method RollRow(ghost obs: seq<Observation>, r: Rollup, latest: Latest, date: int, inRange: bool, ghost o: Observation)
    returns (next: Rollup)
    requires RolledUp(obs, r) && IsLatest(obs, latest) && (obs == [] ==> date == r.currentDate)
    requires o.date == date && o.inRange == inRange
    ensures RolledUp(obs + [o], next)
  {
    next := r;
    if obs == [] {
      FirstDay(o);
      assert obs + [o] == [o];
      SawNext(obs, o, 0);
    } else {
      NextLastStart(obs, o);
      NextCompleted(obs, o);
      SawNext(obs, o, LastStart(obs + [o]));
    }
    if date != r.currentDate {
      next := Flush(obs, r, latest);
      next := next.(currentDate := date, wasInRange := false);
    }
    next := next.(wasInRange := next.wasInRange || inRange);
  }

  /** The rows so far are rolled up, the last one is remembered. */
  ghost predicate Grouped(obs: seq<Observation>, i: nat, first: int, latest: Latest, rollup: Rollup)
    requires i <= |obs|
  {
    (i == 0 ==> rollup.currentDate == first) && RolledUp(obs[..i], rollup) && IsLatest(obs[..i], latest)
  }

  method GroupRow(ghost obs: seq<Observation>, i: nat, first: int, latest: Latest, rollup: Rollup,
                  date: int, price: real, inRange: bool, fees: real, il: real)
    returns (latest': Latest, rollup': Rollup)
    requires i < |obs| && obs[i] == Observation(date, price, inRange, fees, il) && (i == 0 ==> date == first)
    requires Grouped(obs, i, first, latest, rollup)
    ensures Grouped(obs, i + 1, first, latest', rollup')
  {
    assert obs[..i] + [obs[i]] == obs[..i + 1];
    rollup' := RollRow(obs[..i], rollup, latest, date, inRange, obs[i]);
    latest' := Latest(price, fees, il);
  }

  /** Before the first row; `price` is remembered but never reported. */
  method StartGrouping(ghost obs: seq<Observation>, first: int, price: real) returns (latest: Latest, rollup: Rollup)
    ensures Grouped(obs, 0, first, latest, rollup)
  {
    latest, rollup := Latest(price, 0.0, 0.0), Rollup([], 0, first, false);
  }

  method FlushLast(ghost obs: seq<Observation>, ghost first: int, latest: Latest, rollup: Rollup)
    returns (days: seq<DayResult>, daysInRange: nat)
    requires obs != [] && Grouped(obs, |obs|, first, latest, rollup)
    ensures days == Days(obs) && daysInRange == CountInRange(days)
  {
    assert obs[..|obs|] == obs;
    DaysSplit(obs);
    var final := Flush(obs, rollup, latest);
    days, daysInRange := final.days, final.daysInRange;
  }
}
