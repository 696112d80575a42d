# nsbench metrics model

nsbench floods a DNS nameserver with lookups from one worker thread per CPU
and reports successes, failures, a smoothed latency and the request rate.
All of its arithmetic goes through one record, `RunDetails`
(`successes`, `failures`, `duration` in nanoseconds), and this project models
that record and everything the threads do to it, as pure functions over
immutable values:

- `Metrics` (metrics.dfy): the record, `Default`, `reset` and the `+=` merge,
  which adds the counts and replaces the duration with the floored mean of
  the two durations. Sums of counts over sequences of records.
- `Worker` (worker.dfy): the body of the lookup loop in `perform_queries`.
  Each lookup is given as its outcome, `Ok(elapsed)` or `Err`; the loop is a
  fold over the outcomes (`RunWorker`) and a method (`PerformQueries`).
- `Sampler` (sampler.dfy): the per-worker informer thread. Its tick sends a
  copy of the window and resets it. A trace of `Lookup`/`Tick` events fixes
  one order in which the worker and the sampler take the window's lock.
- `Aggregator` (aggregator.dfy): the reporting thread in `main`, which
  merges every received snapshot into `totals` and into `temp_total` (here
  `window`) and resets the latter when the clock says to print. The clock
  decision is a boolean carried with each delivery.
- `Pipeline` (pipeline.dfy): several workers' traces feeding one channel in
  any interleaving. The final totals count every lookup exactly once when
  each worker's last lookup is followed by a sampler tick
  (`Pipeline.FinalTotalsExact`); otherwise they miss exactly the unsent
  windows (`Pipeline.TotalsPlusLostWindows`).
- `Report` (report.dfy): the integer throughput `successes / time_secs`.

Quirks of the source that are proved rather than changed: the merge is
commutative but not associative in `duration`; `Default` is a merge identity
for the counts only (it halves the duration); the smoothed latency depends on
the order of the successes; and the first success after a reset records half
its elapsed time, because the average is seeded with zero.

Facts about the program that shape the model:

- Workers send no final record when they stop; every count reaches the
  reporting thread through sampler snapshots only.
- `successes / time_secs` panics when the run time is zero, so
  `Report.Throughput` requires a positive run time.
- The progress window is flushed once `as_secs()` of the time since the last
  flush exceeds 1, that is after at least two whole seconds; the model takes
  this decision as an input.

## Model

| member | source | states |
|---|---|---|
| Metrics.Mean2 | src/main.rs:58 | the floored mean lies between the smaller and the larger input, and twice it is the sum or one less |
| Metrics.Default | src/main.rs:46-53 | the default record has zero successes, zero failures and zero duration |
| Metrics.Reset | src/main.rs:39-43 | resetting any record yields the default record, all three fields zero |
| Metrics.Merge | src/main.rs:56-62 | `a += b` adds the success and failure counts exactly and leaves a duration between the two inputs' durations, the floor of their mean |
| Metrics.MergeCommutative | src/main.rs:57-61 | merging `a` with `b` gives the same record as merging `b` with `a`, in all three fields |
| Metrics.MergeCountsAssociative | src/main.rs:59-60 | the counts of a merge do not depend on how merges are grouped |
| Metrics.MergeNotAssociative | src/main.rs:58 | durations 0, 0, 4 give 2ns grouped left and 1ns grouped right, so the merge is not associative |
| Metrics.MergeOrderMatters | src/main.rs:56-62 | merging a 10ns then a 0ns record into a default total gives 2ns, the reverse order 5ns |
| Metrics.DefaultIdentityForCounts | src/main.rs:46-62 | merging with the default keeps both counts, halves the duration, and returns the record unchanged exactly when its duration is zero |
| Metrics.SumPermutation | src/main.rs:196-198 | snapshots received in any order add up to the same success and failure sums |
| Worker.RecordOutcome | src/main.rs:107-122 | a success adds one success, keeps failures and sets the duration to the floored mean of the elapsed time and the previous value (so between the two); a failure adds one failure and changes nothing else |
| Worker.CountsCoverAll | src/main.rs:105-122 | every lookup is counted once, as a success or as a failure, and the successes match the elapsed samples |
| Worker.RunWorkerCounts | src/main.rs:105-122 | after the loop, successes grew by the number of Ok outcomes and failures by the number of Err outcomes |
| Worker.LatencyIgnoresFailures | src/main.rs:113-122 | the smoothed duration equals the halving moving average of the successes' elapsed times alone, in order |
| Worker.FailuresOnlyCount | src/main.rs:119-122 | a run of failures leaves successes and duration unchanged and adds its length to failures |
| Worker.DurationBounded | src/main.rs:114-118 | the smoothed duration never exceeds the slowest success or the starting duration |
| Worker.FirstSuccessHalved | src/main.rs:114-118 | in a fresh window the first success records half its elapsed time |
| Worker.LatencyOrderMatters | src/main.rs:114-118 | successes of 10ns then 0ns leave 2ns, 0ns then 10ns leave 5ns |
| Worker.PerformQueries | src/main.rs:105-123 | with no sampler tick in between, the loop from the default record ends with successes and failures equal to the Ok and Err counts and the duration equal to the moving average of the successes, bounded by the slowest |
| Sampler.TickWindow | src/main.rs:96-98 | a tick appends a copy of the current window to the sent snapshots and leaves the window at the default record |
| Sampler.TickConserves | src/main.rs:96-98 | a tick neither loses nor duplicates counts between the window and the sent snapshots |
| Sampler.RunConserves | src/main.rs:92-123 | over any interleaving of lookups and ticks, sent snapshots plus the window gain exactly the Ok and Err counts of the lookups |
| Sampler.EmittedOnlyGrows | src/main.rs:94-99 | snapshots once sent are never altered, and exactly one is sent per tick |
| Sampler.NoDoubleCounting | src/main.rs:92-123 | sent snapshots plus the window equal the counts the worker would hold had the sampler never reset it |
| Sampler.FinalTickDrains | src/main.rs:94-99 | when the last event is a tick the window is empty and the sent snapshots carry all of the worker's counts |
| Aggregator.Start | src/main.rs:193-194 | the reporting thread starts with both totals and window at the default record |
| Aggregator.Receive | src/main.rs:196-211 | a snapshot's counts are added to the totals and, unless the window is flushed, to the window; a flush leaves the window at the default record; the totals' duration, and the unflushed window's, become the floored mean of the old value and the snapshot's |
| Aggregator.AggregateTotals | src/main.rs:196-198 | the totals' counts are the sums of the counts of every snapshot received |
| Aggregator.TotalsIgnoreFlush | src/main.rs:196-211 | the flush decisions never affect the totals: the same snapshots give the same totals |
| Aggregator.TotalsDurationBounded | src/main.rs:197 | the totals' duration never exceeds the longest snapshot duration or the starting one |
| Aggregator.FlushClearsWindow | src/main.rs:209-210 | after a flushing delivery the window is the default record |
| Aggregator.WindowSinceFlush | src/main.rs:198-211 | the window's counts are the sums over the snapshots since the last flush, plus the starting window's if none flushed |
| Pipeline.AllEmittedSums | src/main.rs:92-99 | when every worker's trace ends with a tick, the snapshots of all samplers sum to all workers' Ok and Err counts |
| Pipeline.EmittedPlusWindows | src/main.rs:92-123 | for any traces, all samplers' snapshots plus the windows left unsent sum to all workers' Ok and Err counts |
| Pipeline.TotalsPlusLostWindows | src/main.rs:92-123 | for any traces, delivery order and flush decisions, the final totals plus the unsent windows' counts equal all workers' Ok and Err counts |
| Pipeline.ShutdownLosesCounts | src/main.rs:94-99 | a worker that ticks and then succeeds once yields totals with no success out of one lookup |
| Pipeline.FinalTotalsExact | src/main.rs:192-214 | whatever the delivery order and flush decisions, the final totals equal the number of successful and failed lookups over all workers |
| Report.Throughput | src/main.rs:241 | the requests per second `r` satisfy `r * time_secs <= successes < (r + 1) * time_secs` |
| Report.ThroughputUnique | src/main.rs:241 | that bracket determines the throughput: any whole number inside it is the throughput |

## Left out

- Threads, the mutex held by `main` as a start barrier, the `AtomicBool`
  stop flags and the channels (src/main.rs:92-95, 99-105, 125-126, 165-192,
  212-227): they are concurrency; the model fixes one order of lock
  acquisitions as a trace. The tick body and the receive loop's merges inside
  those threads are modelled.
- Pipeline.FinalTotalsExact: requires every worker's trace to end with a
  sampler tick. In the program the sampler can see its stop flag right after
  a reset and exit without sending lookups made since, so counts can be lost
  at shutdown. Traces that end with lookups after the last tick are covered
  by `Pipeline.TotalsPlusLostWindows`, which states exactly what is lost, and
  `Pipeline.ShutdownLosesCounts` exhibits such a loss; which traces the
  thread scheduler actually produces is not modelled.
- Resolver construction and `lookup` (src/main.rs:65-82, 107-112): a foreign
  network library; each lookup is an `Ok(elapsed)`/`Err` outcome.
- `Instant` reads and `thread::sleep` (src/main.rs:93-95, 106, 117, 200,
  219): elapsed nanoseconds and the flush decision are inputs.
- Command-line parsing (src/main.rs:129-163): library-driven.
- The success-rate percentage (src/main.rs:238): floating point; with zero
  lookups it is NaN rather than an error.
- All printing, including the progress line's `as u64` conversion of the
  window duration.
- Fixed-width overflow of the `u64` counts and the `u128` duration: all
  fields are unbounded naturals.
- Report.Throughput: requires a positive run time, because the program's
  integer division panics on zero.
