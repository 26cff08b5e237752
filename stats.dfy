/**
 * Statistics bookkeeping of the stress tester (stats/stats.go).
 *
 * A `UserStats` record is kept per caller id and updated once per query
 * attempt; one `QueryStats` object holds the global counters, the per-caller
 * map and the running max / min / mean of the workers' completion times.
 * Durations are int64 nanoseconds in the source and plain integers here.
 */
module Stats {

  function Abs(x: int): nat { if x < 0 then -x else x }

  function Max(a: int, b: int): int { if a < b then b else a }

  function Min(a: int, b: int): int { if a < b then a else b }

  /** Multiplying both sides by a positive factor keeps an inequality. */
  lemma MulLe(x: int, y: int, n: int)
    requires x <= y && n >= 0
    ensures x * n <= y * n
  {
  }

  /** Go's integer division, which truncates toward zero (Dafny's `/` is Euclidean). */
  function Quot(a: int, b: int): (q: int)
    requires b != 0
    ensures Abs(a - q * b) < Abs(b)
    ensures a - q * b == 0 || (a - q * b < 0 <==> a < 0)
  {
    var m := Abs(a) / Abs(b);
    if (a < 0) == (b < 0) then m else -m
  }

  /** On nonnegative operands and a positive divisor Go's division is the Euclidean one. */
  lemma QuotOfNonnegative(a: int, b: int)
    requires a >= 0 && b > 0
    ensures Quot(a, b) == a / b
  {
  }

  // ---------------------------------------------------------------------
  // Per-user statistics

  /** One caller's statistics (stats.go:12-20); a value, copied in and out of the map. */
  datatype UserStats = UserStats(
    totalQueries: int,
    totalTime: int,
    longestTime: int,
    shortestTime: int,
    longestQuery: string,
    shortestQuery: string)
  {
    /**
     * The record after one more attempt that took `elapsedTime` running `query`:
     * Go's pointer-receiver `Update`, applied to a local copy, field by field.
     */
    method Update(elapsedTime: int, query: string) returns (updated: UserStats)
      ensures updated.totalQueries == totalQueries + 1
      ensures updated.totalTime == totalTime + elapsedTime
      ensures updated.longestTime == Max(longestTime, elapsedTime)
      ensures updated.longestQuery == if elapsedTime > longestTime then query else longestQuery
      ensures updated.shortestTime == if shortestTime == 0 then elapsedTime else Min(shortestTime, elapsedTime)
      ensures updated.shortestQuery ==
                if shortestTime == 0 || elapsedTime < shortestTime then query else shortestQuery
      ensures updated == Recorded(this, elapsedTime, query)
    {
      updated := this;
      updated := updated.(totalQueries := updated.totalQueries + 1);
      updated := updated.(totalTime := updated.totalTime + elapsedTime);

      if elapsedTime > updated.longestTime {
        updated := updated.(longestTime := elapsedTime);
        updated := updated.(longestQuery := query);
      }

      if elapsedTime < updated.shortestTime || updated.shortestTime == 0 {
        updated := updated.(shortestTime := elapsedTime);
        updated := updated.(shortestQuery := query);
      }
    }
  }

  /** Go's zero value `UserStats{}`: no attempt recorded, a zero `shortestTime` reads as "unset". */
  const Zero := UserStats(0, 0, 0, 0, "", "")

  /**
   * Specification of `Update`: the count and the total grow, the longest time is the
   * maximum and the shortest the minimum (an unset shortest is always replaced); the
   * query text changes only with a strict improvement.
   */
  function Recorded(u: UserStats, elapsedTime: int, query: string): (r: UserStats)
    ensures r.totalQueries == u.totalQueries + 1 && r.totalTime == u.totalTime + elapsedTime
    ensures r.longestTime >= u.longestTime && r.longestTime >= elapsedTime
    ensures r.longestTime == u.longestTime || r.longestTime == elapsedTime
    ensures r.longestQuery != u.longestQuery ==> r.longestQuery == query && elapsedTime > u.longestTime
    ensures u.shortestTime != 0 ==> r.shortestTime <= u.shortestTime && r.shortestTime <= elapsedTime
    ensures r.shortestTime == u.shortestTime || r.shortestTime == elapsedTime
    ensures r.shortestQuery != u.shortestQuery ==>
              r.shortestQuery == query && (u.shortestTime == 0 || elapsedTime < u.shortestTime)
  {
    UserStats(
      u.totalQueries + 1,
      u.totalTime + elapsedTime,
      Max(u.longestTime, elapsedTime),
      if u.shortestTime == 0 then elapsedTime else Min(u.shortestTime, elapsedTime),
      if elapsedTime > u.longestTime then query else u.longestQuery,
      if u.shortestTime == 0 || elapsedTime < u.shortestTime then query else u.shortestQuery)
  }

  /** One recorded attempt of a caller: how long it took and which query it ran. */
  datatype Sample = Sample(elapsed: int, query: string)

  /** The record after `Update` has been applied to every sample, in order. */
  function Replay(u: UserStats, samples: seq<Sample>): UserStats
  {
    if samples == [] then u
    else
      var n := |samples| - 1;
      Recorded(Replay(u, samples[..n]), samples[n].elapsed, samples[n].query)
  }

  function TotalElapsed(samples: seq<Sample>): int
  {
    if samples == [] then 0
    else TotalElapsed(samples[..|samples| - 1]) + samples[|samples| - 1].elapsed
  }

  /** The first position of a longest sample. */
  function ArgFirstMax(samples: seq<Sample>): (i: nat)
    requires samples != []
    ensures i < |samples|
    ensures forall j :: 0 <= j < |samples| ==> samples[j].elapsed <= samples[i].elapsed
    ensures forall j :: 0 <= j < i ==> samples[j].elapsed < samples[i].elapsed
  {
    var n := |samples| - 1;
    if n == 0 then 0
    else
      var i := ArgFirstMax(samples[..n]);
      if samples[n].elapsed > samples[i].elapsed then n else i
  }

  /** The first position of a shortest sample. */
  function ArgFirstMin(samples: seq<Sample>): (i: nat)
    requires samples != []
    ensures i < |samples|
    ensures forall j :: 0 <= j < |samples| ==> samples[i].elapsed <= samples[j].elapsed
    ensures forall j :: 0 <= j < i ==> samples[i].elapsed < samples[j].elapsed
  {
    var n := |samples| - 1;
    if n == 0 then 0
    else
      var i := ArgFirstMin(samples[..n]);
      if samples[n].elapsed < samples[i].elapsed then n else i
  }

  /** Whatever the starting record, replaying samples adds their count and their total time. */
  lemma {:induction false} ReplayCounts(u: UserStats, samples: seq<Sample>)
    ensures Replay(u, samples).totalQueries == u.totalQueries + |samples|
    ensures Replay(u, samples).totalTime == u.totalTime + TotalElapsed(samples)
  {
    if samples != [] {
      ReplayCounts(u, samples[..|samples| - 1]);
    }
  }

  /** Replaying two runs of samples one after the other is replaying their concatenation. */
  lemma {:induction false} ReplayAppend(u: UserStats, a: seq<Sample>, b: seq<Sample>)
    ensures Replay(u, a + b) == Replay(Replay(u, a), b)
  {
    if b == [] {
      assert a + b == a;
    } else {
      var n := |b| - 1;
      ReplayAppend(u, a, b[..n]);
      assert (a + b)[..|a + b| - 1] == a + b[..n];
    }
  }

  /**
   * From the zero record, with strictly positive durations: the longest time is the
   * maximum sample and its query that of the FIRST maximum (replacement needs a strict `>`);
   * the shortest time is the minimum and its query that of the first minimum.
   */
  lemma {:induction false} ReplayFromZero(samples: seq<Sample>)
    requires forall j :: 0 <= j < |samples| ==> samples[j].elapsed > 0
    ensures samples == [] ==> Replay(Zero, samples) == Zero
    ensures samples != [] ==>
      var r := Replay(Zero, samples);
      var hi, lo := ArgFirstMax(samples), ArgFirstMin(samples);
      && r.longestTime == samples[hi].elapsed && r.longestQuery == samples[hi].query
      && r.shortestTime == samples[lo].elapsed && r.shortestQuery == samples[lo].query
      && 0 < r.shortestTime <= r.longestTime
  {
    if samples != [] {
      var n := |samples| - 1;
      var prefix := samples[..n];
      ReplayFromZero(prefix);
      if n > 0 {
        var hi, lo := ArgFirstMax(prefix), ArgFirstMin(prefix);
        assert prefix[hi] == samples[hi] && prefix[lo] == samples[lo];
      }
    }
  }

  /**
   * The per-user average reported by `printQueriesPerUser`, `TotalTime / TotalQueries`
   * (stats.go:86); a recorded entry has a nonzero count, so it never divides by zero.
   */
  function UserAverage(u: UserStats): (r: int)
    requires u.totalQueries != 0
    ensures Abs(u.totalTime - r * u.totalQueries) < Abs(u.totalQueries)
    ensures u.totalTime >= 0 && u.totalQueries > 0 ==> r == u.totalTime / u.totalQueries
  {
    Quot(u.totalTime, u.totalQueries)
  }

  lemma {:induction false} TotalElapsedBounds(samples: seq<Sample>, lo: int, hi: int)
    requires forall j :: 0 <= j < |samples| ==> lo <= samples[j].elapsed <= hi
    ensures |samples| * lo <= TotalElapsed(samples) <= |samples| * hi
  {
    if samples != [] {
      var n := |samples| - 1;
      TotalElapsedBounds(samples[..n], lo, hi);
      assert |samples| * lo == n * lo + lo && |samples| * hi == n * hi + hi;
    }
  }

  lemma QuotBetween(total: int, n: int, lo: int, hi: int)
    requires n > 0 && lo >= 0 && n * lo <= total <= n * hi
    ensures lo <= Quot(total, n) <= hi
  {
    MulLe(0, lo, n);
    var q := Quot(total, n);
    QuotOfNonnegative(total, n);
    assert q * n <= total < q * n + n;
    if q < lo {
      MulLe(q + 1, lo, n);
    }
    if q > hi {
      MulLe(hi + 1, q, n);
    }
  }

  /**
   * For one caller whose attempts all took a positive time, the reported average lies
   * between the reported fastest and slowest times.
   */
  lemma UserAverageBetweenExtremes(samples: seq<Sample>)
    requires samples != []
    requires forall j :: 0 <= j < |samples| ==> samples[j].elapsed > 0
    ensures Replay(Zero, samples).totalQueries == |samples|
    ensures Replay(Zero, samples).shortestTime <= UserAverage(Replay(Zero, samples))
                                               <= Replay(Zero, samples).longestTime
  {
    var r := Replay(Zero, samples);
    ReplayCounts(Zero, samples);
    ReplayFromZero(samples);
    var lo, hi := r.shortestTime, r.longestTime;
    var n, total := |samples|, TotalElapsed(samples);
    assert r.totalQueries == n && r.totalTime == total;
    assert forall j :: 0 <= j < n ==> lo <= samples[j].elapsed <= hi;
    TotalElapsedBounds(samples, lo, hi);
    QuotBetween(total, n, lo, hi);
  }

  // ---------------------------------------------------------------------
  // Global statistics

  /** The round-completion part of the global record: running mean, maximum and minimum. */
  datatype Times = Times(average: int, max: int, min: int)

  /**
   * Go's running mean `avg*(n-1)/n + e/n` in truncating int64 division, where `n` is the
   * global attempt count at the time of the call. With one attempt counted it is the new
   * duration; with nonnegative values it lies between 0 and the larger of the old mean
   * and the new duration.
   */
  function RunningMean(average: int, n: int, elapsedTime: int): (r: int)
    requires n != 0
    ensures n == 1 ==> r == elapsedTime
    ensures n > 0 && average >= 0 && elapsedTime >= 0 ==> 0 <= r <= Max(average, elapsedTime)
  {
    MeanStepBelow(average, n, elapsedTime);
    Quot(average * (n - 1), n) + Quot(elapsedTime, n)
  }

  /** Euclidean division of a nonnegative number rounds down to a nonnegative quotient. */
  lemma DivBelow(a: int, n: int)
    requires a >= 0 && n > 0
    ensures 0 <= a / n && (a / n) * n <= a
  {
  }

  /** Dividing an inequality by a positive factor. */
  lemma SumBelow(x: int, y: int, n: int, m: int)
    requires n > 0 && x * n + y * n <= m * n
    ensures x + y <= m
  {
  }

  /** The two truncated shares of the running mean add up to at most the larger value. */
  lemma MeanStepBelow(average: int, n: int, elapsedTime: int)
    requires n != 0
    ensures n > 0 && average >= 0 && elapsedTime >= 0 ==>
              0 <= Quot(average * (n - 1), n) + Quot(elapsedTime, n) <= Max(average, elapsedTime)
  {
    if n > 0 && average >= 0 && elapsedTime >= 0 {
      var m := Max(average, elapsedTime);
      var a, b := average * (n - 1), elapsedTime;
      MulLe(0, average, n - 1);
      MulLe(average, m, n - 1);
      assert m * (n - 1) + m == m * n;
      QuotOfNonnegative(a, n);
      QuotOfNonnegative(b, n);
      DivBelow(a, n);
      DivBelow(b, n);
      SumBelow(a / n, b / n, n, m);
    }
  }

  /** The maximum bounds the minimum and the mean, all of them nonnegative. */
  predicate Consistent(t: Times)
  {
    0 <= t.min <= t.max && 0 <= t.average <= t.max
  }

  /**
   * Specification of `UpdateQueryTimeStats`; a zero minimum reads as "unset". The maximum
   * is the larger of the old one and the new duration, the minimum is one of the two, and
   * with a positive count and a nonnegative duration consistent times stay consistent.
   */
  function Completed(t: Times, n: int, elapsedTime: int): (r: Times)
    requires n != 0
    ensures r.max >= t.max && r.max >= elapsedTime && (r.max == t.max || r.max == elapsedTime)
    ensures r.min == t.min || r.min == elapsedTime
    ensures t.min != 0 ==> r.min <= t.min && r.min <= elapsedTime
    ensures n == 1 ==> r.average == elapsedTime
    ensures n > 0 && elapsedTime >= 0 && Consistent(t) ==> Consistent(r)
  {
    Times(
      RunningMean(t.average, n, elapsedTime),
      Max(t.max, elapsedTime),
      if t.min == 0 || elapsedTime < t.min then elapsedTime else t.min)
  }

  /** The global statistics (stats.go:22-32); the mutex is not modelled. */
  class QueryStats {
    var totalQueries: int
    var queriesPerUser: map<int, UserStats>
    var averageQueryTime: int
    var maxQueryTime: int
    var minQueryTime: int
    var failedQueryCount: int
    var successfulQueries: int
    var startTime: int

    /** Every attempt is counted exactly once, as a failure or as a success, and every
        per-user entry records at least one attempt. */
    ghost predicate Valid()
      reads this
    {
      && failedQueryCount >= 0
      && successfulQueries >= 0
      && totalQueries == failedQueryCount + successfulQueries
      && forall user :: user in queriesPerUser ==> queriesPerUser[user].totalQueries >= 1
    }

    /** The record's running times are `Consistent`. */
    ghost predicate TimesConsistent()
      reads this
    {
      Consistent(TimesOf())
    }

    function TimesOf(): Times
      reads this
    {
      Times(averageQueryTime, maxQueryTime, minQueryTime)
    }

    /** The record `main` creates: an empty map, zero counters and the run's start time. */
    constructor (startTime: int)
      ensures Valid() && TimesConsistent()
      ensures totalQueries == 0 && failedQueryCount == 0 && successfulQueries == 0
      ensures queriesPerUser == map[]
      ensures TimesOf() == Times(0, 0, 0)
      ensures this.startTime == startTime
    {
      totalQueries := 0;
      queriesPerUser := map[];
      averageQueryTime := 0;
      maxQueryTime := 0;
      minQueryTime := 0;
      failedQueryCount := 0;
      successfulQueries := 0;
      this.startTime := startTime;
    }

    /**
     * Record a worker's completion time: running maximum, running minimum (an unset zero
     * minimum is always replaced) and running mean over `totalQueries`. The division by
     * `totalQueries` panics in the source when it is zero.
     */
    method UpdateQueryTimeStats(elapsedTime: int)
      requires totalQueries != 0
      modifies this`maxQueryTime, this`minQueryTime, this`averageQueryTime
      ensures maxQueryTime == Max(old(maxQueryTime), elapsedTime)
      ensures old(minQueryTime) == 0 || elapsedTime < old(minQueryTime) ==> minQueryTime == elapsedTime
      ensures !(old(minQueryTime) == 0 || elapsedTime < old(minQueryTime)) ==> minQueryTime == old(minQueryTime)
      ensures averageQueryTime == RunningMean(old(averageQueryTime), totalQueries, elapsedTime)
      ensures TimesOf() == Completed(old(TimesOf()), totalQueries, elapsedTime)
      ensures totalQueries == old(totalQueries) && queriesPerUser == old(queriesPerUser)
      ensures failedQueryCount == old(failedQueryCount) && successfulQueries == old(successfulQueries)
      ensures startTime == old(startTime)
      ensures totalQueries > 0 && elapsedTime >= 0 && old(TimesConsistent()) ==> TimesConsistent()
    {
      if elapsedTime > maxQueryTime {
        maxQueryTime := elapsedTime;
      }

      if elapsedTime < minQueryTime || minQueryTime == 0 {
        minQueryTime := elapsedTime;
      }

      var n := totalQueries;
      averageQueryTime := Quot(averageQueryTime * (n - 1), n) + Quot(elapsedTime, n);
    }
  }
}
