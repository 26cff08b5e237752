# Stress-test statistics bookkeeping, in Dafny

A Dafny model of the statistics kept by `stress-test`, a Go tool that runs one SQL
query many times from several workers and reports counts and timings. The model
covers two parts of that tool:

- the statistics records of `stats/stats.go`;
- the per-attempt bookkeeping of `runQuery` in `query/query.go`.

Both files work by changing state step by step, and the model keeps that form.

- `stats.dfy`, module `Stats`:
  - `UserStats` is a datatype. A Go map entry is a value that is copied out, updated
    and written back. `UserStats.Update` is the pointer-receiver method applied to
    that local copy, one field at a time. `Recorded` is its specification.
  - `QueryStats` is a class with the global counters, the `map<int, UserStats>` of
    per-user records and the running max / min / mean of the workers' completion
    times. `UpdateQueryTimeStats` updates those three fields in place.
  - Go's truncating `int64` division is `Quot`, because Dafny's `/` is Euclidean.
- `query.dfy`, module `Query`:
  - `RunQuery` is the nested loop of `runQuery`. The database and the clock become
    inputs: `rounds[i][user - 1]` says whether attempt `(i, user)` succeeded and how
    long it took, and `sinceStart` is the worker's final `time.Since(StartTime)`.
  - Its inner loop is `RecordRound`, and the loop body is `RecordAttempt`.
  - `RunWorkers` runs the `concurrency` workers that `StressTest` starts, one after
    another.
  - Pure replay functions (`ReplayRound`, `ReplayRounds`, `ReplayWorkers`,
    `CompletedAll`) give the state the methods must reach. The lemmas state what the
    source promises about that state.

In three places the code does something other than the obvious intent. The model follows the code:

- The code calls `UpdateQueryTimeStats` once per worker, after all of its rounds. It
  is not called after every round.
- The running mean divides by the global attempt count, not by the number of
  completion times averaged so far. So the average does not always lie between the
  minimum and the maximum. With nonnegative completion times the mean never exceeds
  the maximum: after one call (`RunningMean`, `Completed`, `UpdateQueryTimeStats`),
  after a worker (`RunQuery`) and over a whole run (`CompletedAllConsistent`,
  `RunWorkers`). It can fall below the minimum: `MeanBelowMinimumRun` gives an
  average of 5 where the minimum is 10.
- The per-caller key is the inner loop index, not the worker. Each worker makes
  `iteration * concurrency` attempts, so a run makes `concurrency² * iteration`. The
  model keeps this as written (`RunWorkers`, `AlwaysSucceedingRun`).

As given, the sources do not compile:

- `query.go` uses `fmt` without importing it.
- The `stats` parameter shadows the package name at `query.go:36`.
- `main.go` calls `PrintResults` with the wrong number of arguments.

The model follows the evident intent: `stats.UserStats{}` is the zero record `Zero`.

## Model

| member | source | states |
|---|---|---|
| `Stats.Quot` | stats/stats.go:47 | Go's `int64` division: the remainder is smaller than the divisor in magnitude and has the sign of the dividend |
| `Stats.QuotOfNonnegative` | stats/stats.go:47 | on a nonnegative dividend and a positive divisor, truncating division equals Euclidean division |
| `Stats.Recorded` | stats/stats.go:51-64 | one recorded attempt: the count grows by 1 and the total time by the duration; the longest time is at least the old one and the new duration and is one of them; a set shortest time does not grow and is at most the new duration; each query text changes only to the new query and only with a strict improvement (or an unset shortest time) |
| `Stats.UserStats.Update` | stats/stats.go:51-64 | the count grows by exactly 1 and the total time by exactly `elapsedTime`; longest time = max(old, new), with the query replaced only when the new time is strictly longer; an unset (zero) shortest time is always replaced, otherwise shortest = min, with the query replaced only when strictly shorter; the result equals the specification `Recorded` |
| `Stats.ReplayCounts` | stats/stats.go:52-53 | a sequence of `Update`s adds the number of samples to the count and their sum to the total time |
| `Stats.ReplayAppend` | stats/stats.go:51-64 | updating with two runs of samples in turn equals updating with their concatenation |
| `Stats.ReplayFromZero` | stats/stats.go:55-63 | from the zero record, with positive durations: longest time = the maximum sample and longest query = the query of its FIRST occurrence; shortest time = the minimum and shortest query = that of its first occurrence; 0 < shortest <= longest |
| `Stats.ArgFirstMax` | stats/stats.go:55-58 | the reference for "first maximum": no sample is longer, and every earlier sample is strictly shorter |
| `Stats.ArgFirstMin` | stats/stats.go:60-63 | the reference for "first minimum": no sample is shorter, and every earlier sample is strictly longer |
| `Stats.UserAverage` | stats/stats.go:86 | `TotalTime / TotalQueries` in Go's division: the remainder is smaller than the count in magnitude, and on nonnegative values it is the floor of the quotient |
| `Stats.UserAverageBetweenExtremes` | stats/stats.go:86 | for a caller with positive durations, the reported average `TotalTime / TotalQueries` lies between its shortest and longest time |
| `Stats.RunningMean` | stats/stats.go:47 | the running mean over the global count: with a count of one it is exactly the new duration; with a positive count and nonnegative values it lies between 0 and the larger of the old mean and the new duration |
| `Stats.Completed` | stats/stats.go:39-47 | the new maximum is at least the old maximum and the duration and is one of them; the new minimum is the old one or the duration, and a set minimum never grows; with a count of one the mean is the duration; with a positive count and a nonnegative duration, consistent times (0 <= min <= max, 0 <= average <= max) stay consistent |
| `Stats.QueryStats.constructor` | main.go:36-39 | a fresh record: empty map, zero counters and times, the given start time |
| `Stats.QueryStats.UpdateQueryTimeStats` | stats/stats.go:35-48 | requires a nonzero total (the division); max = max(old, elapsed); min := elapsed exactly when the old min is 0 or elapsed is smaller, otherwise unchanged; average = the truncating running mean over the total; no other field changes; the times stay consistent (0 <= min, average <= max) |
| `Query.SuccessesPlusFailures` | query/query.go:22-28 | every attempt is counted exactly once, as a success or as a failure |
| `Query.FlattenLength` | query/query.go:18-19 | a worker makes `iteration * concurrency` attempts (none for a non-positive bound) |
| `Query.NoFailures` | query/query.go:22-28 | if every attempt succeeds, no failure is counted |
| `Query.FlattenNoFailures` | query/query.go:18-28 | if every attempt of every round succeeds, no failure is counted for the worker |
| `Query.Lookup` | query/query.go:34-37 | the caller's entry when present, otherwise the zero record; in a map whose entries all count at least one attempt, the looked-up count is zero exactly when the caller has no entry |
| `Query.ReplayRoundEffect` | query/query.go:19-39 | in one round, each caller `1..concurrency` gets exactly one `Update` with its own attempt, starting from the zero record if it had none; no other key changes |
| `Query.Column` | query/query.go:18-19 | a caller's samples are one per round, taken from its own column of the outcomes |
| `Query.ReplayRoundsPerUser` | query/query.go:18-39 | after all rounds, each caller holds its starting record updated by its own attempts in order, and has an entry; keys outside `1..concurrency` are unchanged |
| `Query.UserGains` | query/query.go:18-39 | each caller `1..concurrency` gains exactly `iteration` attempts per worker run |
| `Query.ReplayRoundsKeepsCounted` | query/query.go:34-39 | every entry written has a count of at least 1, so the per-user average at stats/stats.go:86 never divides by zero |
| `Query.StartTallied` | main.go:36-39 | the empty map and the zero total start tallied |
| `Query.ReplayRoundsTallied` | query/query.go:18-39 | if the map holds only callers `1..concurrency` and their counts sum to the global total, that stays true after the rounds |
| `Query.RecordAttempt` | query/query.go:20-39 | one attempt: exactly one of the failure and success counters goes up by 1, the total goes up by 1, and the caller's entry (or the zero record) is updated and written back |
| `Query.RecordRound` | query/query.go:19-40 | one round adds `concurrency` attempts, and its successes and failures, and replays them into the map |
| `Query.RunQuery` | query/query.go:15-48 | the total grows by exactly `iteration * concurrency`, successes and failures by the counts of the outcomes, whatever they are; the map is the replay of the rounds; then the completion time is folded into max/min/average over the new total; the invariants (total = failures + successes, every entry counted, per-user counts sum to the total) are preserved; with a nonnegative completion time consistent running times stay consistent |
| `Query.NoDivisionByZero` | query/query.go:18-47 | with at least one round and one caller, the total is positive when `UpdateQueryTimeStats` divides by it |
| `Query.ReplayWorkersPerUser` | query/query.go:62-65 | after all workers, each caller holds its starting record updated by its attempts of every worker, in order; keys outside `1..concurrency` are unchanged |
| `Query.WorkerColumnLength` | query/query.go:62-65 | a caller's samples over the run number workers times `iteration` |
| `Query.WorkersGain` | query/query.go:62-65 | each caller gains `iteration` attempts from every worker |
| `Query.CompletedAllConsistent` | query/query.go:44-47 | over all the workers' completion times, if they are nonnegative, consistent running times stay consistent: the mean never exceeds the maximum |
| `Query.RunWorkers` | query/query.go:62-65 | the `concurrency` workers, run one after another, add `concurrency * concurrency * iteration` attempts; each caller gains `concurrency * iteration`; other keys are unchanged; the invariants and the tally are kept; the running times are the fold of the completion times, and with nonnegative completion times consistent times stay consistent |
| `Query.CallerStatsOfRun` | query/query.go:18-39 | from an empty map, with positive durations, a caller's entry counts `concurrency * iteration` attempts, holds the maximum and the minimum of its own durations (first occurrences), and its average lies between them |
| `Query.WorkerColumnSamples` | query/query.go:34-39 | each of a caller's samples comes from an attempt of the run and carries the worker's query |
| `Query.AlwaysSucceedingRun` | query/query.go:18-32 | three workers, two rounds, a query that always succeeds: 18 attempts, 18 successes, 0 failures |
| `Query.MeanBelowMinimumRun` | stats/stats.go:47 | two workers of one round of two callers, both finishing at 10: the running mean is 5 while the minimum is 10 |

## Left out

- `main.go` as a whole is left out: flag parsing, the exit on a missing query, draining the results channel and printing. Only the initial record (main.go:36-39) is modelled, as the constructor.
- `StressTest` is left out: `sql.Open`, `log.Fatal`, the `sync.WaitGroup` and `close(results)`. `RunWorkers` models only its worker loop, with the workers run one after another.
- Concurrency is not modelled. `runQuery` writes the counters and the map without the lock, which is a data race in the source. The model runs each attempt and each worker to completion before the next and claims nothing about interleavings.
- `sync.Mutex` is left out. Each locked region is an atomic method.
- `db.Exec`, `time.Now` and `time.Since` become input sequences of outcomes and durations. `time.Sleep`, `log.Println` and the `results <-` send are left out; they do not affect the statistics.
- `PrintResults` and `printQueriesPerUser` are left out: the formatting, the RFC3339 times and Go's map iteration order. The one computation they do on the statistics, the per-user average (stats.go:86), is `UserAverage`.
- `calculatePercentage` (stats.go:92-97) is left out because it uses `float64`. Its `total == 0` guard returns 0.
- `Stats.QueryStats.UpdateQueryTimeStats`: uses unbounded integers, so it does not model `int64` overflow of `AverageQueryTime * (TotalQueries - 1)`.
- `Stats.UserStats.Update`: uses unbounded integers, so it does not model `int64` overflow of `TotalTime`.
- `StartTime` is a plain integer that no method changes. Wall-clock time is not modelled.
