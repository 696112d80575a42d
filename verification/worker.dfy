/** One worker thread's lookup loop. The resolver call and the clock are
    abstracted away: each lookup is given as its outcome, a success carrying
    the nanoseconds it took, or a failure of any kind. */
module Worker {
  import opened Metrics

  datatype Outcome = Ok(elapsed: nat) | Err

  /** One pass of the loop body: a success counts and folds its elapsed time
      into the smoothed duration, a failure only counts. */
  function RecordOutcome(d: RunDetails, o: Outcome): (r: RunDetails)
    ensures o.Ok? ==> r.successes == d.successes + 1 && r.failures == d.failures
    ensures o.Ok? ==> Min(o.elapsed, d.duration) <= r.duration <= Max(o.elapsed, d.duration)
    ensures o.Ok? ==> 2 * r.duration <= o.elapsed + d.duration <= 2 * r.duration + 1
    ensures o.Err? ==> r.successes == d.successes && r.failures == d.failures + 1
    ensures o.Err? ==> r.duration == d.duration
  {
    match o
    case Ok(elapsed) => d.(successes := d.successes + 1, duration := Mean2(elapsed, d.duration))
    case Err => d.(failures := d.failures + 1)
  }

  /** The record after the loop has handled every outcome of `os`, first to last. */
  function RunWorker(d: RunDetails, os: seq<Outcome>): RunDetails
  {
    if |os| == 0 then d else RecordOutcome(RunWorker(d, os[..|os| - 1]), os[|os| - 1])
  }

  /** Number of successful lookups. */
  function CountOk(os: seq<Outcome>): nat
  {
    if |os| == 0 then 0 else CountOk(os[..|os| - 1]) + (if os[|os| - 1].Ok? then 1 else 0)
  }

  /** Number of failed lookups. */
  function CountErr(os: seq<Outcome>): nat
  {
    if |os| == 0 then 0 else CountErr(os[..|os| - 1]) + (if os[|os| - 1].Err? then 1 else 0)
  }

  /** The elapsed times of the successful lookups, in order. */
  function OkElapsed(os: seq<Outcome>): seq<nat>
  {
    if |os| == 0 then []
    else
      var last := os[|os| - 1];
      OkElapsed(os[..|os| - 1]) + (if last.Ok? then [last.elapsed] else [])
  }

  /** The slowest successful lookup, 0 when there is none. */
  function MaxElapsed(os: seq<Outcome>): nat
  {
    if |os| == 0 then 0
    else
      var last := os[|os| - 1];
      Max(MaxElapsed(os[..|os| - 1]), if last.Ok? then last.elapsed else 0)
  }

  /** Reference definition of the smoothed latency: starting at `prev`, each
      sample in turn is averaged with the running value. */
  function Ema(prev: nat, samples: seq<nat>): nat
  {
    if |samples| == 0 then prev else Mean2(samples[|samples| - 1], Ema(prev, samples[..|samples| - 1]))
  }

  /** Every lookup is counted exactly once, as a success or as a failure. */
  lemma {:induction false} CountsCoverAll(os: seq<Outcome>)
    ensures CountOk(os) + CountErr(os) == |os|
    ensures CountOk(os) == |OkElapsed(os)|
  {
    if |os| > 0 {
      CountsCoverAll(os[..|os| - 1]);
    }
  }

  /** The worker's counts are exact: successes grow by the number of Ok
      outcomes and failures by the number of Err outcomes. */
  lemma {:induction false} RunWorkerCounts(d: RunDetails, os: seq<Outcome>)
    ensures RunWorker(d, os).successes == d.successes + CountOk(os)
    ensures RunWorker(d, os).failures == d.failures + CountErr(os)
  {
    if |os| > 0 {
      RunWorkerCounts(d, os[..|os| - 1]);
    }
  }

  /** Failures never touch the latency: the smoothed duration is the moving
      average of the successes' elapsed times alone, in the order they came. */
  lemma {:induction false} LatencyIgnoresFailures(d: RunDetails, os: seq<Outcome>)
    ensures RunWorker(d, os).duration == Ema(d.duration, OkElapsed(os))
  {
    if |os| > 0 {
      var init := os[..|os| - 1];
      var last := os[|os| - 1];
      LatencyIgnoresFailures(d, init);
      if last.Ok? {
        var s := OkElapsed(init) + [last.elapsed];
        assert OkElapsed(os) == s;
        assert s[..|s| - 1] == OkElapsed(init);
      } else {
        assert OkElapsed(os) == OkElapsed(init);
      }
    }
  }

  /** A run of failures leaves the record's successes and duration as they were. */
  lemma {:induction false} FailuresOnlyCount(d: RunDetails, os: seq<Outcome>)
    requires forall i :: 0 <= i < |os| ==> os[i].Err?
    ensures RunWorker(d, os).duration == d.duration
    ensures RunWorker(d, os).successes == d.successes
    ensures RunWorker(d, os).failures == d.failures + |os|
  {
    if |os| > 0 {
      FailuresOnlyCount(d, os[..|os| - 1]);
    }
  }

  /** The smoothed latency never exceeds the slowest success (or the value it
      started from). */
  lemma {:induction false} DurationBounded(d: RunDetails, os: seq<Outcome>)
    ensures RunWorker(d, os).duration <= Max(d.duration, MaxElapsed(os))
  {
    if |os| > 0 {
      DurationBounded(d, os[..|os| - 1]);
    }
  }

  /** From a fresh window, the first success records half of its elapsed time:
      the average is seeded with zero. */
  lemma FirstSuccessHalved(d: RunDetails, e: nat)
    requires d == Default()
    ensures RecordOutcome(d, Ok(e)).duration == e / 2
    ensures RecordOutcome(d, Ok(e)).successes == 1
  {
  }

  /** The smoothed latency depends on the order of the successes: a 10ns
      lookup followed by a 0ns one leaves 2ns, the reverse order leaves 5ns. */
  lemma LatencyOrderMatters(os: seq<Outcome>, rs: seq<Outcome>)
    requires os == [Ok(10), Ok(0)] && rs == [Ok(0), Ok(10)]
    ensures RunWorker(Default(), os).duration == 2
    ensures RunWorker(Default(), rs).duration == 5
  {
    assert os[..1] == [Ok(10)] && rs[..1] == [Ok(0)];
    assert RunWorker(Default(), os[..1]).duration == 5;
    assert RunWorker(Default(), rs[..1]).duration == 0;
  }

  /** The loop of one worker, from the default record, over the outcomes its
      lookups produced, as if the sampler never ticked in between. In the
      program the sampler resets the record on every tick; that case is
      `Sampler.NoDoubleCounting`, which relates it back to this result. */
  method PerformQueries(os: seq<Outcome>) returns (d: RunDetails)
    ensures d.successes == CountOk(os)
    ensures d.failures == CountErr(os)
    ensures d.duration == Ema(0, OkElapsed(os))
    ensures d.duration <= MaxElapsed(os)
  {
    d := Default();
    var i := 0;
    while i < |os|
      invariant i <= |os|
      invariant d == RunWorker(Default(), os[..i])
    {
      assert os[..i + 1][..i] == os[..i];
      d := RecordOutcome(d, os[i]);
      i := i + 1;
    }
    assert os[..i] == os;
    RunWorkerCounts(Default(), os);
    LatencyIgnoresFailures(Default(), os);
    DurationBounded(Default(), os);
  }
}
