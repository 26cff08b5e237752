/**
 * The bookkeeping of one worker (`runQuery`, query/query.go) and of the workers
 * `StressTest` starts, run one after another.
 *
 * The database and the clock are replaced by inputs: `rounds[i][user - 1]` is what
 * the attempt of round `i` for caller `user` reported (did `db.Exec` succeed, how long
 * it took), and `sinceStart` is the worker's `time.Since(stats.StartTime)` at the end.
 */
module Query {
  import opened Stats

  /** One query attempt: whether it succeeded and how long it took. */
  datatype Attempt = Attempt(succeeded: bool, elapsed: int)

  /** How often `for i := 0; i < n; i++` (or `for u := 1; u <= n; u++`) runs its body. */
  function LoopCount(n: int): nat { if n > 0 then n else 0 }

  /** The attempts of one worker: `iteration` rounds of `concurrency` callers each. */
  function NumAttempts(iteration: int, concurrency: int): nat
  {
    LoopCount(iteration) * LoopCount(concurrency)
  }

  /** The outcomes a worker meets have the shape of its two nested loops. */
  predicate Shaped(rounds: seq<seq<Attempt>>, iteration: int, concurrency: int)
  {
    && |rounds| == LoopCount(iteration)
    && forall i :: 0 <= i < |rounds| ==> |rounds[i]| == LoopCount(concurrency)
  }

  /** The attempts in the order the worker makes them. */
  function Flatten(rounds: seq<seq<Attempt>>): seq<Attempt>
  {
    if rounds == [] then []
    else Flatten(rounds[..|rounds| - 1]) + rounds[|rounds| - 1]
  }

  function Successes(attempts: seq<Attempt>): nat
  {
    if attempts == [] then 0
    else
      var n := |attempts| - 1;
      Successes(attempts[..n]) + (if attempts[n].succeeded then 1 else 0)
  }

  function Failures(attempts: seq<Attempt>): nat
  {
    if attempts == [] then 0
    else
      var n := |attempts| - 1;
      Failures(attempts[..n]) + (if attempts[n].succeeded then 0 else 1)
  }

  /** Every attempt is either a success or a failure. */
  lemma {:induction false} SuccessesPlusFailures(attempts: seq<Attempt>)
    ensures Successes(attempts) + Failures(attempts) == |attempts|
  {
    if attempts != [] {
      SuccessesPlusFailures(attempts[..|attempts| - 1]);
    }
  }

  /** A worker makes `iteration * concurrency` attempts, whatever their outcomes. */
  lemma {:induction false} FlattenLength(rounds: seq<seq<Attempt>>, iteration: int, concurrency: int)
    requires Shaped(rounds, iteration, concurrency)
    ensures |Flatten(rounds)| == NumAttempts(iteration, concurrency)
  {
    if rounds != [] {
      var n := |rounds| - 1;
      FlattenLength(rounds[..n], n, concurrency);
      assert LoopCount(n) * LoopCount(concurrency) + LoopCount(concurrency) == LoopCount(iteration) * LoopCount(concurrency);
    }
  }

  /** If every attempt succeeds, none is counted as failed. */
  lemma {:induction false} NoFailures(attempts: seq<Attempt>)
    requires forall j :: 0 <= j < |attempts| ==> attempts[j].succeeded
    ensures Failures(attempts) == 0
  {
    if attempts != [] {
      NoFailures(attempts[..|attempts| - 1]);
    }
  }

  lemma {:induction false} FlattenNoFailures(rounds: seq<seq<Attempt>>)
    requires forall i, j :: 0 <= i < |rounds| && 0 <= j < |rounds[i]| ==> rounds[i][j].succeeded
    ensures Failures(Flatten(rounds)) == 0
  {
    if rounds != [] {
      var n := |rounds| - 1;
      FlattenNoFailures(rounds[..n]);
      var s := Flatten(rounds);
      forall j | 0 <= j < |s| ensures s[j].succeeded {
        if j >= |Flatten(rounds[..n])| {
          assert s[j] == rounds[n][j - |Flatten(rounds[..n])|];
        } else {
          NoFailuresAt(Flatten(rounds[..n]), j);
        }
      }
      NoFailures(s);
    }
  }

  /** An attempt of a sequence without failures succeeded. */
  lemma {:induction false} NoFailuresAt(attempts: seq<Attempt>, j: nat)
    requires Failures(attempts) == 0 && j < |attempts|
    ensures attempts[j].succeeded
  {
    var n := |attempts| - 1;
    if j < n {
      NoFailuresAt(attempts[..n], j);
    }
  }

  // ---------------------------------------------------------------------
  // The per-user map

  /** `userStats, ok := stats.QueriesPerUser[user]`, the zero record when `!ok`. */
  function Lookup(m: map<int, UserStats>, user: int): (r: UserStats)
    ensures user in m ==> r == m[user]
    ensures user !in m ==> r == Zero
    ensures EntriesCounted(m) ==> (r.totalQueries == 0 <==> user !in m)
  {
    if user in m then m[user] else Zero
  }

  /** The entries of `m1` and `m2` for keys outside `1..users` are the same. */
  ghost predicate AgreeOutside(m1: map<int, UserStats>, m2: map<int, UserStats>, users: int)
  {
    forall k :: k < 1 || users < k ==>
      (k in m1 <==> k in m2) && (k in m1 ==> m1[k] == m2[k])
  }

  /** One round of the inner loop: caller `u` records the attempt `round[u - 1]`. */
  function ReplayRound(m: map<int, UserStats>, query: string, round: seq<Attempt>): map<int, UserStats>
  {
    if round == [] then m
    else
      var user := |round|;
      var prev := ReplayRound(m, query, round[..user - 1]);
      prev[user := Recorded(Lookup(prev, user), round[user - 1].elapsed, query)]
  }

  /** All rounds of the outer loop, in order. */
  function ReplayRounds(m: map<int, UserStats>, query: string, rounds: seq<seq<Attempt>>): map<int, UserStats>
  {
    if rounds == [] then m
    else
      var n := |rounds| - 1;
      ReplayRound(ReplayRounds(m, query, rounds[..n]), query, rounds[n])
  }

  /**
   * In one round every caller `1..|round|` gets exactly one `Update` with its own
   * attempt, and no other key of the map is touched.
   */
  lemma {:induction false} ReplayRoundEffect(m: map<int, UserStats>, query: string, round: seq<Attempt>)
    ensures forall k :: 1 <= k <= |round| ==>
      k in ReplayRound(m, query, round) &&
      ReplayRound(m, query, round)[k] == Recorded(Lookup(m, k), round[k - 1].elapsed, query)
    ensures AgreeOutside(m, ReplayRound(m, query, round), |round|)
  {
    if round != [] {
      var user := |round|;
      var prefix := round[..user - 1];
      ReplayRoundEffect(m, query, prefix);
    }
  }

  /** The samples of caller `j + 1`, one per round, all running `query`. */
  function Column(rounds: seq<seq<Attempt>>, j: nat, query: string): (samples: seq<Sample>)
    requires forall i :: 0 <= i < |rounds| ==> j < |rounds[i]|
    ensures |samples| == |rounds|
    ensures forall i :: 0 <= i < |rounds| ==> samples[i] == Sample(rounds[i][j].elapsed, query)
  {
    if rounds == [] then []
    else
      var n := |rounds| - 1;
      Column(rounds[..n], j, query) + [Sample(rounds[n][j].elapsed, query)]
  }

  /**
   * Over all rounds, each caller `1..users` ends with its starting record (zero if it had
   * none) updated by its own attempts in order; keys outside `1..users` are untouched.
   */
  lemma {:induction false} ReplayRoundsPerUser(m: map<int, UserStats>, query: string,
                                               rounds: seq<seq<Attempt>>, users: nat)
    requires forall i :: 0 <= i < |rounds| ==> |rounds[i]| == users
    ensures forall k :: 1 <= k <= users ==>
      Lookup(ReplayRounds(m, query, rounds), k) == Replay(Lookup(m, k), Column(rounds, k - 1, query))
    ensures rounds != [] ==> forall k :: 1 <= k <= users ==> k in ReplayRounds(m, query, rounds)
    ensures AgreeOutside(m, ReplayRounds(m, query, rounds), users)
  {
    if rounds != [] {
      var n := |rounds| - 1;
      var prev := ReplayRounds(m, query, rounds[..n]);
      ReplayRoundsPerUser(m, query, rounds[..n], users);
      ReplayRoundEffect(prev, query, rounds[n]);
      forall k | 1 <= k <= users
        ensures Lookup(ReplayRounds(m, query, rounds), k) == Replay(Lookup(m, k), Column(rounds, k - 1, query))
      {
        var col := Column(rounds, k - 1, query);
        assert col[..n] == Column(rounds[..n], k - 1, query);
      }
    }
  }

  /** Each caller `1..users` gains one attempt per round; so every written entry counts at least one. */
  lemma UserGains(m: map<int, UserStats>, query: string, rounds: seq<seq<Attempt>>, users: nat)
    requires forall i :: 0 <= i < |rounds| ==> |rounds[i]| == users
    ensures forall k :: 1 <= k <= users ==>
      Lookup(ReplayRounds(m, query, rounds), k).totalQueries == Lookup(m, k).totalQueries + |rounds|
  {
    ReplayRoundsPerUser(m, query, rounds, users);
    forall k | 1 <= k <= users
      ensures Lookup(ReplayRounds(m, query, rounds), k).totalQueries == Lookup(m, k).totalQueries + |rounds|
    {
      ReplayCounts(Lookup(m, k), Column(rounds, k - 1, query));
    }
  }

  /** Every entry of the map records at least one attempt. */
  ghost predicate EntriesCounted(m: map<int, UserStats>)
  {
    forall k :: k in m ==> m[k].totalQueries >= 1
  }

  /**
   * A missing entry starts from the zero record and is updated at once, so the map keeps
   * only entries with a nonzero count (the per-user average never divides by zero).
   */
  lemma ReplayRoundsKeepsCounted(m: map<int, UserStats>, query: string, rounds: seq<seq<Attempt>>, users: nat)
    requires forall i :: 0 <= i < |rounds| ==> |rounds[i]| == users
    requires EntriesCounted(m)
    ensures EntriesCounted(ReplayRounds(m, query, rounds))
  {
    var r := ReplayRounds(m, query, rounds);
    ReplayRoundsPerUser(m, query, rounds, users);
    UserGains(m, query, rounds, users);
    forall k | k in r ensures r[k].totalQueries >= 1 {
      if 1 <= k <= users {
        if rounds == [] {
          assert r == m;
        } else {
          assert Lookup(m, k).totalQueries >= 0;
        }
      }
    }
  }

  // ---------------------------------------------------------------------
  // Per-user counts against the global count

  /** The attempts recorded for callers `lo..hi-1`. */
  function CountSum(m: map<int, UserStats>, lo: int, hi: int): int
    decreases hi - lo
  {
    if hi <= lo then 0 else CountSum(m, lo, hi - 1) + Lookup(m, hi - 1).totalQueries
  }

  lemma {:induction false} CountSumShift(m1: map<int, UserStats>, m2: map<int, UserStats>, lo: int, hi: int, d: int)
    requires lo <= hi
    requires forall k :: lo <= k < hi ==> Lookup(m2, k).totalQueries == Lookup(m1, k).totalQueries + d
    ensures CountSum(m2, lo, hi) == CountSum(m1, lo, hi) + (hi - lo) * d
    decreases hi - lo
  {
    if lo < hi {
      CountSumShift(m1, m2, lo, hi - 1, d);
      assert (hi - 1 - lo) * d + d == (hi - lo) * d;
    }
  }

  lemma {:induction false} CountSumEmpty(lo: int, hi: int)
    ensures CountSum(map[], lo, hi) == 0
    decreases hi - lo
  {
    if lo < hi {
      CountSumEmpty(lo, hi - 1);
    }
  }

  /** The map holds only callers `1..users`, and their counts add up to `total`. */
  ghost predicate Tallied(m: map<int, UserStats>, total: int, users: int)
  {
    && (forall k :: k in m ==> 1 <= k <= users)
    && CountSum(m, 1, users + 1) == total
  }

  /** The empty map and a zero count, as the run starts, are tallied. */
  lemma StartTallied(users: int)
    ensures Tallied(map[], 0, users)
  {
    CountSumEmpty(1, users + 1);
  }

  /** Replaying the rounds keeps the per-user counts summing to the global count. */
  lemma ReplayRoundsTallied(m: map<int, UserStats>, query: string, rounds: seq<seq<Attempt>>,
                            users: nat, total: int)
    requires forall i :: 0 <= i < |rounds| ==> |rounds[i]| == users
    requires Tallied(m, total, users)
    ensures Tallied(ReplayRounds(m, query, rounds), total + |rounds| * users, users)
  {
    var r := ReplayRounds(m, query, rounds);
    ReplayRoundsPerUser(m, query, rounds, users);
    UserGains(m, query, rounds, users);
    CountSumShift(m, r, 1, users + 1, |rounds|);
    assert users * |rounds| == |rounds| * users;
  }

  // ---------------------------------------------------------------------
  // One worker

  /**
   * One attempt of the inner loop of `runQuery`: it counts as a failure or as a success
   * and once in the total; the caller's entry is copied out of the map (or starts from
   * the zero record), updated and written back.
   */
  method RecordAttempt(stats: QueryStats, query: string, user: int, attempt: Attempt)
    modifies stats
    ensures stats.totalQueries == old(stats.totalQueries) + 1
    ensures stats.failedQueryCount == old(stats.failedQueryCount) + (if attempt.succeeded then 0 else 1)
    ensures stats.successfulQueries == old(stats.successfulQueries) + (if attempt.succeeded then 1 else 0)
    ensures stats.queriesPerUser ==
              old(stats.queriesPerUser)[user := Recorded(Lookup(old(stats.queriesPerUser), user), attempt.elapsed, query)]
    ensures stats.TimesOf() == old(stats.TimesOf()) && stats.startTime == old(stats.startTime)
  {
    if !attempt.succeeded {
      stats.failedQueryCount := stats.failedQueryCount + 1;
    } else {
      stats.successfulQueries := stats.successfulQueries + 1;
    }

    var elapsedTime := attempt.elapsed;

    stats.totalQueries := stats.totalQueries + 1;
    var userStats := Zero;
    if user in stats.queriesPerUser {
      userStats := stats.queriesPerUser[user];
    }
    userStats := userStats.Update(elapsedTime, query);
    stats.queriesPerUser := stats.queriesPerUser[user := userStats];
  }

  /** One round: callers `1..concurrency`, in order, each make one attempt. */
  method RecordRound(stats: QueryStats, query: string, concurrency: int, round: seq<Attempt>)
    requires |round| == LoopCount(concurrency)
    modifies stats
    ensures stats.totalQueries == old(stats.totalQueries) + |round|
    ensures stats.successfulQueries == old(stats.successfulQueries) + Successes(round)
    ensures stats.failedQueryCount == old(stats.failedQueryCount) + Failures(round)
    ensures stats.queriesPerUser == ReplayRound(old(stats.queriesPerUser), query, round)
    ensures stats.TimesOf() == old(stats.TimesOf()) && stats.startTime == old(stats.startTime)
  {
    var user := 1;
    while user <= concurrency
      invariant 1 <= user <= |round| + 1
      invariant stats.totalQueries == old(stats.totalQueries) + (user - 1)
      invariant stats.successfulQueries == old(stats.successfulQueries) + Successes(round[..user - 1])
      invariant stats.failedQueryCount == old(stats.failedQueryCount) + Failures(round[..user - 1])
      invariant stats.queriesPerUser == ReplayRound(old(stats.queriesPerUser), query, round[..user - 1])
      invariant stats.TimesOf() == old(stats.TimesOf()) && stats.startTime == old(stats.startTime)
    {
      assert round[..user][..user - 1] == round[..user - 1];
      RecordAttempt(stats, query, user, round[user - 1]);
      user := user + 1;
    }
    assert round[..user - 1] == round;
  }

  lemma {:induction false} SuccessesAppend(a: seq<Attempt>, b: seq<Attempt>)
    ensures Successes(a + b) == Successes(a) + Successes(b)
    ensures Failures(a + b) == Failures(a) + Failures(b)
  {
    if b != [] {
      var n := |b| - 1;
      SuccessesAppend(a, b[..n]);
      assert (a + b)[..|a + b| - 1] == a + b[..n];
    } else {
      assert a + b == a;
    }
  }

  /**
   * The bookkeeping of `runQuery`: every attempt of every round is recorded, a failed
   * one as much as a successful one, and at the end the worker's completion time goes to
   * `UpdateQueryTimeStats`, which divides by the total (a panic in the source when zero).
   */
  method RunQuery(stats: QueryStats, query: string, concurrency: int, iteration: int,
                  rounds: seq<seq<Attempt>>, sinceStart: int)
    requires Shaped(rounds, iteration, concurrency)
    requires stats.totalQueries + NumAttempts(iteration, concurrency) != 0
    modifies stats
    ensures stats.totalQueries == old(stats.totalQueries) + NumAttempts(iteration, concurrency)
    ensures stats.successfulQueries == old(stats.successfulQueries) + Successes(Flatten(rounds))
    ensures stats.failedQueryCount == old(stats.failedQueryCount) + Failures(Flatten(rounds))
    ensures stats.queriesPerUser == ReplayRounds(old(stats.queriesPerUser), query, rounds)
    ensures stats.TimesOf() == Completed(old(stats.TimesOf()), stats.totalQueries, sinceStart)
    ensures stats.startTime == old(stats.startTime)
    ensures old(stats.Valid()) ==> stats.Valid()
    ensures old(stats.Valid()) && old(stats.TimesConsistent()) && sinceStart >= 0 ==> stats.TimesConsistent()
    ensures old(Tallied(stats.queriesPerUser, stats.totalQueries, LoopCount(concurrency))) ==>
              Tallied(stats.queriesPerUser, stats.totalQueries, LoopCount(concurrency))
  {
    var i := 0;
    while i < iteration
      invariant 0 <= i <= |rounds|
      invariant stats.totalQueries == old(stats.totalQueries) + i * LoopCount(concurrency)
      invariant stats.successfulQueries == old(stats.successfulQueries) + Successes(Flatten(rounds[..i]))
      invariant stats.failedQueryCount == old(stats.failedQueryCount) + Failures(Flatten(rounds[..i]))
      invariant stats.queriesPerUser == ReplayRounds(old(stats.queriesPerUser), query, rounds[..i])
      invariant stats.TimesOf() == old(stats.TimesOf()) && stats.startTime == old(stats.startTime)
    {
      assert rounds[..i + 1][..i] == rounds[..i];
      SuccessesAppend(Flatten(rounds[..i]), rounds[i]);
      RecordRound(stats, query, concurrency, rounds[i]);
      assert i * LoopCount(concurrency) + LoopCount(concurrency) == (i + 1) * LoopCount(concurrency);
      i := i + 1;
    }
    assert rounds[..i] == rounds;

    ghost var counted := old(stats.Valid());
    ghost var tallied := old(Tallied(stats.queriesPerUser, stats.totalQueries, LoopCount(concurrency)));
    FlattenLength(rounds, iteration, concurrency);
    stats.UpdateQueryTimeStats(sinceStart);

    SuccessesPlusFailures(Flatten(rounds));
    if counted {
      ReplayRoundsKeepsCounted(old(stats.queriesPerUser), query, rounds, LoopCount(concurrency));
    }
    if tallied {
      ReplayRoundsTallied(old(stats.queriesPerUser), query, rounds, LoopCount(concurrency), old(stats.totalQueries));
    }
  }

  /** With at least one round and one caller the division at the end of `runQuery` is safe. */
  lemma NoDivisionByZero(total: int, iteration: int, concurrency: int)
    requires total >= 0 && iteration >= 1 && concurrency >= 1
    ensures total + NumAttempts(iteration, concurrency) > 0
  {
  }

  // ---------------------------------------------------------------------
  // The workers of a run, one after another

  /** The per-user map after each worker's rounds, worker after worker. */
  function ReplayWorkers(m: map<int, UserStats>, query: string, workers: seq<seq<seq<Attempt>>>): map<int, UserStats>
    decreases |workers|
  {
    if workers == [] then m
    else ReplayWorkers(ReplayRounds(m, query, workers[0]), query, workers[1..])
  }

  function WorkerSuccesses(workers: seq<seq<seq<Attempt>>>): nat
  {
    if workers == [] then 0 else Successes(Flatten(workers[0])) + WorkerSuccesses(workers[1..])
  }

  function WorkerFailures(workers: seq<seq<seq<Attempt>>>): nat
  {
    if workers == [] then 0 else Failures(Flatten(workers[0])) + WorkerFailures(workers[1..])
  }

  /**
   * The running times after each worker's `UpdateQueryTimeStats`; the k-th worker to finish
   * (from 1) divides by `total + k * perWorker`.
   */
  function CompletedAll(t: Times, total: int, perWorker: nat, finishTimes: seq<int>): Times
    requires total >= 0 && (finishTimes == [] || total + perWorker > 0)
    decreases |finishTimes|
  {
    if finishTimes == [] then t
    else
      var next := Completed(t, total + perWorker, finishTimes[0]);
      CompletedAll(next, total + perWorker, perWorker, finishTimes[1..])
  }

  /**
   * Over a whole run, with nonnegative completion times, consistent running times stay
   * consistent: the mean never exceeds the maximum (it may still fall below the minimum).
   */
  lemma {:induction false} CompletedAllConsistent(t: Times, total: int, perWorker: nat, finishTimes: seq<int>)
    requires total >= 0 && (finishTimes == [] || total + perWorker > 0)
    requires Consistent(t)
    requires forall j :: 0 <= j < |finishTimes| ==> finishTimes[j] >= 0
    ensures Consistent(CompletedAll(t, total, perWorker, finishTimes))
    decreases |finishTimes|
  {
    if finishTimes != [] {
      var next := Completed(t, total + perWorker, finishTimes[0]);
      CompletedAllConsistent(next, total + perWorker, perWorker, finishTimes[1..]);
    }
  }

  /** All samples of caller `j + 1`, worker after worker. */
  function WorkerColumn(workers: seq<seq<seq<Attempt>>>, j: nat, query: string): seq<Sample>
    requires forall w, i :: 0 <= w < |workers| && 0 <= i < |workers[w]| ==> j < |workers[w][i]|
  {
    if workers == [] then []
    else Column(workers[0], j, query) + WorkerColumn(workers[1..], j, query)
  }

  /** Every worker has the shape of `runQuery`'s loops. */
  predicate AllShaped(workers: seq<seq<seq<Attempt>>>, iteration: int, concurrency: int)
  {
    forall w :: 0 <= w < |workers| ==> Shaped(workers[w], iteration, concurrency)
  }

  /**
   * After all workers, caller `k` in `1..concurrency` holds its starting record updated by
   * its own attempts of every worker, in order; keys outside `1..concurrency` are untouched.
   */
  lemma {:induction false} ReplayWorkersPerUser(m: map<int, UserStats>, query: string,
                                                workers: seq<seq<seq<Attempt>>>, iteration: int, concurrency: int)
    requires AllShaped(workers, iteration, concurrency)
    ensures forall k :: 1 <= k <= concurrency ==>
      Lookup(ReplayWorkers(m, query, workers), k) == Replay(Lookup(m, k), WorkerColumn(workers, k - 1, query))
    ensures AgreeOutside(m, ReplayWorkers(m, query, workers), LoopCount(concurrency))
    decreases |workers|
  {
    if workers != [] {
      var m1 := ReplayRounds(m, query, workers[0]);
      assert AllShaped(workers[1..], iteration, concurrency) by {
        forall w | 0 <= w < |workers| - 1 ensures Shaped(workers[1..][w], iteration, concurrency) {
          assert workers[1..][w] == workers[w + 1];
        }
      }
      ReplayRoundsPerUser(m, query, workers[0], LoopCount(concurrency));
      ReplayWorkersPerUser(m1, query, workers[1..], iteration, concurrency);
      forall k | 1 <= k <= concurrency
        ensures Lookup(ReplayWorkers(m, query, workers), k) == Replay(Lookup(m, k), WorkerColumn(workers, k - 1, query))
      {
        ReplayAppend(Lookup(m, k), Column(workers[0], k - 1, query), WorkerColumn(workers[1..], k - 1, query));
      }
    }
  }

  lemma {:induction false} WorkerColumnLength(workers: seq<seq<seq<Attempt>>>, j: nat, query: string,
                                              iteration: int, concurrency: int)
    requires AllShaped(workers, iteration, concurrency) && j < concurrency
    ensures |WorkerColumn(workers, j, query)| == |workers| * LoopCount(iteration)
  {
    if workers != [] {
      assert AllShaped(workers[1..], iteration, concurrency) by {
        forall w | 0 <= w < |workers| - 1 ensures Shaped(workers[1..][w], iteration, concurrency) {
          assert workers[1..][w] == workers[w + 1];
        }
      }
      WorkerColumnLength(workers[1..], j, query, iteration, concurrency);
      assert (|workers| - 1) * LoopCount(iteration) + LoopCount(iteration) == |workers| * LoopCount(iteration);
    }
  }

  /** Each caller `1..concurrency` gains `iteration` attempts from every worker. */
  lemma WorkersGain(m: map<int, UserStats>, query: string, workers: seq<seq<seq<Attempt>>>,
                    iteration: int, concurrency: int)
    requires AllShaped(workers, iteration, concurrency)
    ensures forall k :: 1 <= k <= concurrency ==>
      Lookup(ReplayWorkers(m, query, workers), k).totalQueries == Lookup(m, k).totalQueries + |workers| * LoopCount(iteration)
  {
    ReplayWorkersPerUser(m, query, workers, iteration, concurrency);
    forall k | 1 <= k <= concurrency
      ensures Lookup(ReplayWorkers(m, query, workers), k).totalQueries == Lookup(m, k).totalQueries + |workers| * LoopCount(iteration)
    {
      WorkerColumnLength(workers, k - 1, query, iteration, concurrency);
      ReplayCounts(Lookup(m, k), WorkerColumn(workers, k - 1, query));
    }
  }

  /**
   * The `concurrency` workers that `StressTest` starts, run one after another: every
   * worker makes `iteration * concurrency` attempts (the callers are the inner loop's
   * index, not the worker), so the run makes `concurrency * concurrency * iteration`.
   */
  method RunWorkers(stats: QueryStats, query: string, concurrency: int, iteration: int,
                    workers: seq<seq<seq<Attempt>>>, finishTimes: seq<int>)
    requires |workers| == LoopCount(concurrency) && |finishTimes| == |workers|
    requires AllShaped(workers, iteration, concurrency)
    requires stats.Valid()
    requires workers == [] || stats.totalQueries + NumAttempts(iteration, concurrency) != 0
    modifies stats
    ensures stats.Valid()
    ensures stats.totalQueries == old(stats.totalQueries) + LoopCount(concurrency) * NumAttempts(iteration, concurrency)
    ensures stats.successfulQueries == old(stats.successfulQueries) + WorkerSuccesses(workers)
    ensures stats.failedQueryCount == old(stats.failedQueryCount) + WorkerFailures(workers)
    ensures stats.queriesPerUser == ReplayWorkers(old(stats.queriesPerUser), query, workers)
    ensures forall k :: 1 <= k <= concurrency ==>
      Lookup(stats.queriesPerUser, k).totalQueries ==
        Lookup(old(stats.queriesPerUser), k).totalQueries + LoopCount(concurrency) * LoopCount(iteration)
    ensures AgreeOutside(old(stats.queriesPerUser), stats.queriesPerUser, LoopCount(concurrency))
    ensures stats.TimesOf() ==
      CompletedAll(old(stats.TimesOf()), old(stats.totalQueries), NumAttempts(iteration, concurrency), finishTimes)
    ensures stats.startTime == old(stats.startTime)
    ensures old(stats.TimesConsistent()) && (forall j :: 0 <= j < |finishTimes| ==> finishTimes[j] >= 0) ==>
              stats.TimesConsistent()
    ensures old(Tallied(stats.queriesPerUser, stats.totalQueries, LoopCount(concurrency))) ==>
              Tallied(stats.queriesPerUser, stats.totalQueries, LoopCount(concurrency))
  {
    var perWorker := NumAttempts(iteration, concurrency);
    var w := 0;
    while w < concurrency
      invariant 0 <= w <= |workers|
      invariant stats.Valid()
      invariant stats.totalQueries == old(stats.totalQueries) + w * perWorker
      invariant stats.successfulQueries + WorkerSuccesses(workers[w..]) ==
                  old(stats.successfulQueries) + WorkerSuccesses(workers)
      invariant stats.failedQueryCount + WorkerFailures(workers[w..]) ==
                  old(stats.failedQueryCount) + WorkerFailures(workers)
      invariant ReplayWorkers(stats.queriesPerUser, query, workers[w..]) ==
                  ReplayWorkers(old(stats.queriesPerUser), query, workers)
      invariant finishTimes[w..] == [] || stats.totalQueries + perWorker > 0
      invariant CompletedAll(stats.TimesOf(), stats.totalQueries, perWorker, finishTimes[w..]) ==
                  CompletedAll(old(stats.TimesOf()), old(stats.totalQueries), perWorker, finishTimes)
      invariant stats.startTime == old(stats.startTime)
      invariant old(Tallied(stats.queriesPerUser, stats.totalQueries, LoopCount(concurrency))) ==>
                  Tallied(stats.queriesPerUser, stats.totalQueries, LoopCount(concurrency))
    {
      assert workers[w..][1..] == workers[w + 1..] && finishTimes[w..][1..] == finishTimes[w + 1..];
      RunQuery(stats, query, concurrency, iteration, workers[w], finishTimes[w]);
      assert w * perWorker + perWorker == (w + 1) * perWorker;
      w := w + 1;
    }
    assert workers[w..] == [] && finishTimes[w..] == [];
    ReplayWorkersPerUser(old(stats.queriesPerUser), query, workers, iteration, concurrency);
    WorkersGain(old(stats.queriesPerUser), query, workers, iteration, concurrency);
    if old(stats.TimesConsistent()) && forall j :: 0 <= j < |finishTimes| ==> finishTimes[j] >= 0 {
      CompletedAllConsistent(old(stats.TimesOf()), old(stats.totalQueries), perWorker, finishTimes);
    }
  }

  /**
   * A caller's record after a run that starts from the empty map, with positive durations:
   * it counts `concurrency * iteration` attempts and holds the longest and the shortest of
   * its own durations (with the query that produced the first of each), and its average
   * lies between the two.
   */
  lemma CallerStatsOfRun(query: string, workers: seq<seq<seq<Attempt>>>, iteration: int,
                         concurrency: int, k: int)
    requires |workers| == LoopCount(concurrency) && iteration >= 1
    requires AllShaped(workers, iteration, concurrency)
    requires 1 <= k <= concurrency
    requires forall w, i, j :: 0 <= w < |workers| && 0 <= i < |workers[w]| && 0 <= j < |workers[w][i]| ==>
               workers[w][i][j].elapsed > 0
    ensures var s := WorkerColumn(workers, k - 1, query);
      var r := Lookup(ReplayWorkers(map[], query, workers), k);
      && k in ReplayWorkers(map[], query, workers)
      && r.totalQueries == concurrency * iteration == |s|
      && r.longestTime == s[ArgFirstMax(s)].elapsed
      && r.shortestTime == s[ArgFirstMin(s)].elapsed
      && r.longestQuery == query && r.shortestQuery == query
      && r.shortestTime <= UserAverage(r) <= r.longestTime
  {
    var s := WorkerColumn(workers, k - 1, query);
    var r := ReplayWorkers(map[], query, workers);
    ReplayWorkersPerUser(map[], query, workers, iteration, concurrency);
    WorkerColumnLength(workers, k - 1, query, iteration, concurrency);
    WorkerColumnSamples(workers, k - 1, query);
    ReplayCounts(Zero, s);
    MulLe(1, concurrency, iteration);
    UserAverageBetweenExtremes(s);
    ReplayFromZero(s);
    assert Lookup(r, k).totalQueries != 0;
  }

  /** A caller's samples come from the run's attempts and all run the same query. */
  lemma {:induction false} WorkerColumnSamples(workers: seq<seq<seq<Attempt>>>, j: nat, query: string)
    requires forall w, i :: 0 <= w < |workers| && 0 <= i < |workers[w]| ==> j < |workers[w][i]|
    ensures forall x :: 0 <= x < |WorkerColumn(workers, j, query)| ==>
      WorkerColumn(workers, j, query)[x].query == query &&
      exists w, i :: 0 <= w < |workers| && 0 <= i < |workers[w]| &&
        WorkerColumn(workers, j, query)[x].elapsed == workers[w][i][j].elapsed
  {
    if workers != [] {
      WorkerColumnSamples(workers[1..], j, query);
      var s := WorkerColumn(workers, j, query);
      var c := Column(workers[0], j, query);
      forall x | 0 <= x < |s|
        ensures s[x].query == query &&
          exists w, i :: 0 <= w < |workers| && 0 <= i < |workers[w]| && s[x].elapsed == workers[w][i][j].elapsed
      {
        if x < |c| {
          assert s[x] == c[x] == Sample(workers[0][x][j].elapsed, query);
        } else {
          var y := x - |c|;
          var rest := WorkerColumn(workers[1..], j, query);
          assert s[x] == rest[y];
          var w, i :| 0 <= w < |workers[1..]| && 0 <= i < |workers[1..][w]| &&
                      rest[y].elapsed == workers[1..][w][i][j].elapsed;
          assert workers[1..][w] == workers[w + 1];
        }
      }
    }
  }

  /**
   * An end-to-end scenario: three workers, two rounds and a query that always succeeds
   * make 3 * 3 * 2 attempts, all successful, none failed.
   */
  method AlwaysSucceedingRun() returns (total: int, succeeded: int, failed: int)
    ensures total == 18 && succeeded == 18 && failed == 0
  {
    var stats := new QueryStats(0);
    var ok := Attempt(true, 10_000_000);
    var rounds := [[ok, ok, ok], [ok, ok, ok]];
    var workers := [rounds, rounds, rounds];
    FlattenNoFailures(rounds);
    assert WorkerFailures(workers[2..]) == 0;
    NoDivisionByZero(stats.totalQueries, 2, 3);
    RunWorkers(stats, "SELECT 1", 3, 2, workers, [60_000_000_000, 60_000_000_000, 60_000_000_000]);
    total, succeeded, failed := stats.totalQueries, stats.successfulQueries, stats.failedQueryCount;
  }

  /**
   * The running mean divides by the attempt count, not by the number of workers that have
   * finished, so it can fall below the smallest completion time: two workers of one round
   * of two callers, both finishing at 10.
   */
  method MeanBelowMinimumRun() returns (average: int, minimum: int)
    ensures average == 5 && minimum == 10 && average < minimum
  {
    var stats := new QueryStats(0);
    var ok := Attempt(true, 1);
    var workers := [[[ok, ok]], [[ok, ok]]];
    NoDivisionByZero(stats.totalQueries, 1, 2);
    RunWorkers(stats, "SELECT 1", 2, 1, workers, [10, 10]);
    average, minimum := stats.averageQueryTime, stats.minQueryTime;
  }
}
