/** The whole run's arithmetic: several workers, each with its own window and
    sampler, feeding one channel that the reporting thread drains. */
module Pipeline {
  import opened Metrics
  import opened Worker
  import Sampler
  import Aggregator

  /** Every snapshot each worker's sampler sent, worker by worker. */
  function AllEmitted(traces: seq<seq<Sampler.Event>>): seq<RunDetails>
  {
    if |traces| == 0 then []
    else AllEmitted(traces[..|traces| - 1]) + Sampler.Run(Sampler.Start(), traces[|traces| - 1]).emitted
  }

  /** Successful lookups over all workers. */
  function TotalOk(traces: seq<seq<Sampler.Event>>): nat
  {
    if |traces| == 0 then 0
    else TotalOk(traces[..|traces| - 1]) + CountOk(Sampler.Lookups(traces[|traces| - 1]))
  }

  /** Failed lookups over all workers. */
  function TotalErr(traces: seq<seq<Sampler.Event>>): nat
  {
    if |traces| == 0 then 0
    else TotalErr(traces[..|traces| - 1]) + CountErr(Sampler.Lookups(traces[|traces| - 1]))
  }

  /** Each worker's window at the end of its trace: what its sampler has not sent. */
  function FinalWindows(traces: seq<seq<Sampler.Event>>): (r: seq<RunDetails>)
    ensures |r| == |traces|
  {
    if |traces| == 0 then []
    else FinalWindows(traces[..|traces| - 1]) + [Sampler.Run(Sampler.Start(), traces[|traces| - 1]).window]
  }

  /** For any traces, the snapshots sent by all samplers plus the windows
      left unsent carry every worker's lookups exactly once. */
  lemma {:induction false} EmittedPlusWindows(traces: seq<seq<Sampler.Event>>)
    ensures SumSuccesses(AllEmitted(traces)) + SumSuccesses(FinalWindows(traces)) == TotalOk(traces)
    ensures SumFailures(AllEmitted(traces)) + SumFailures(FinalWindows(traces)) == TotalErr(traces)
  {
    if |traces| > 0 {
      var init := traces[..|traces| - 1];
      var last := traces[|traces| - 1];
      var fw := FinalWindows(traces);
      EmittedPlusWindows(init);
      Sampler.RunConserves(Sampler.Start(), last);
      SumConcat(AllEmitted(init), Sampler.Run(Sampler.Start(), last).emitted);
      assert fw[..|fw| - 1] == FinalWindows(init);
    }
  }

  /** Whatever the traces, the delivery order and the flush decisions, the
      final totals fall short of all workers' lookups by exactly the counts
      left in the windows no sampler sent. */
  lemma TotalsPlusLostWindows(traces: seq<seq<Sampler.Event>>, ds: seq<Aggregator.Delivery>)
    requires multiset(Aggregator.Snapshots(ds)) == multiset(AllEmitted(traces))
    ensures Aggregator.Aggregate(Aggregator.Start(), ds).totals.successes
            + SumSuccesses(FinalWindows(traces)) == TotalOk(traces)
    ensures Aggregator.Aggregate(Aggregator.Start(), ds).totals.failures
            + SumFailures(FinalWindows(traces)) == TotalErr(traces)
  {
    Aggregator.AggregateTotals(Aggregator.Start(), ds);
    SumPermutation(Aggregator.Snapshots(ds), AllEmitted(traces));
    EmittedPlusWindows(traces);
  }

  /** A lookup made after the sampler's last tick never reaches the totals:
      one worker that ticks and then succeeds once sends only an empty
      snapshot, so the totals report no success out of one. */
  lemma ShutdownLosesCounts(traces: seq<seq<Sampler.Event>>, ds: seq<Aggregator.Delivery>)
    requires traces == [[Sampler.Tick, Sampler.Lookup(Ok(5))]]
    requires multiset(Aggregator.Snapshots(ds)) == multiset(AllEmitted(traces))
    ensures TotalOk(traces) == 1
    ensures Aggregator.Aggregate(Aggregator.Start(), ds).totals.successes == 0
  {
    var t := traces[0];
    assert t[..1] == [Sampler.Tick];
    assert traces[..0] == [];
    assert Sampler.Run(Sampler.Start(), t).window.successes == 1;
    assert Sampler.Lookups(t) == [Ok(5)] by {
      assert Sampler.Lookups(t[..1]) == [];
    }
    assert CountOk([Ok(5)]) == 1 by {
      assert [Ok(5)][..0] == [];
    }
    TotalsPlusLostWindows(traces, ds);
    assert FinalWindows(traces) == [Sampler.Run(Sampler.Start(), t).window];
    SumSingleton(Sampler.Run(Sampler.Start(), t).window);
  }

  /** Each worker's trace closes with a sampler tick after its last lookup. */
  predicate Drained(traces: seq<seq<Sampler.Event>>)
  {
    forall w :: 0 <= w < |traces| ==> |traces[w]| > 0 && traces[w][|traces[w]| - 1].Tick?
  }

  /** When every window has been drained by a final tick, the snapshots sent
      by all samplers carry every worker's lookups exactly once. */
  lemma {:induction false} AllEmittedSums(traces: seq<seq<Sampler.Event>>)
    requires Drained(traces)
    ensures SumSuccesses(AllEmitted(traces)) == TotalOk(traces)
    ensures SumFailures(AllEmitted(traces)) == TotalErr(traces)
  {
    if |traces| > 0 {
      var init := traces[..|traces| - 1];
      var last := traces[|traces| - 1];
      assert Drained(init) by {
        forall w | 0 <= w < |init|
          ensures |init[w]| > 0 && init[w][|init[w]| - 1].Tick?
        {
          assert init[w] == traces[w];
        }
      }
      AllEmittedSums(init);
      Sampler.FinalTickDrains(last);
      SumConcat(AllEmitted(init), Sampler.Run(Sampler.Start(), last).emitted);
    }
  }

  /** End to end, when every worker's trace ends with a tick: whatever order
      the channel delivers the snapshots in and whatever the progress line's
      flush decisions, the final totals count every lookup of every worker
      exactly once. */
  lemma FinalTotalsExact(traces: seq<seq<Sampler.Event>>, ds: seq<Aggregator.Delivery>)
    requires Drained(traces)
    requires multiset(Aggregator.Snapshots(ds)) == multiset(AllEmitted(traces))
    ensures Aggregator.Aggregate(Aggregator.Start(), ds).totals.successes == TotalOk(traces)
    ensures Aggregator.Aggregate(Aggregator.Start(), ds).totals.failures == TotalErr(traces)
  {
    Aggregator.AggregateTotals(Aggregator.Start(), ds);
    SumPermutation(Aggregator.Snapshots(ds), AllEmitted(traces));
    AllEmittedSums(traces);
  }
}
