/** A worker's window shared with its sampler thread. Both sides take the
    window's lock, so their actions reach the window one at a time; a trace
    of events fixes one such order. */
module Sampler {
  import opened Metrics
  import opened Worker

  /** The worker records one lookup outcome, or the sampler ticks. */
  datatype Event = Lookup(outcome: Outcome) | Tick

  /** The window and every snapshot the sampler has sent so far, oldest first. */
  datatype Sampled = Sampled(window: RunDetails, emitted: seq<RunDetails>)

  /** A worker's state when its loop starts: empty window, nothing sent. */
  function Start(): (s: Sampled)
    ensures s.window == Default() && |s.emitted| == 0
  {
    Sampled(Default(), [])
  }

  /** The sampler tick: send a copy of the window, then reset it. */
  function TickWindow(s: Sampled): (r: Sampled)
    ensures r.emitted == s.emitted + [s.window]
    ensures r.window == Default()
  {
    Sampled(Reset(s.window), s.emitted + [s.window])
  }

  function Step(s: Sampled, e: Event): Sampled
  {
    match e
    case Lookup(o) => s.(window := RecordOutcome(s.window, o))
    case Tick => TickWindow(s)
  }

  /** The state after every event of `evs`, first to last. */
  function Run(s: Sampled, evs: seq<Event>): Sampled
  {
    if |evs| == 0 then s else Step(Run(s, evs[..|evs| - 1]), evs[|evs| - 1])
  }

  /** The outcomes of the worker's lookups, in order, without the ticks. */
  function Lookups(evs: seq<Event>): seq<Outcome>
  {
    if |evs| == 0 then []
    else
      var last := evs[|evs| - 1];
      Lookups(evs[..|evs| - 1]) + (if last.Lookup? then [last.outcome] else [])
  }

  function CountTicks(evs: seq<Event>): nat
  {
    if |evs| == 0 then 0 else CountTicks(evs[..|evs| - 1]) + (if evs[|evs| - 1].Tick? then 1 else 0)
  }

  /** A tick moves the window's counts into the sent snapshots: none is lost
      and none is counted twice. */
  lemma TickConserves(s: Sampled)
    ensures SumSuccesses(TickWindow(s).emitted) + TickWindow(s).window.successes
            == SumSuccesses(s.emitted) + s.window.successes
    ensures SumFailures(TickWindow(s).emitted) + TickWindow(s).window.failures
            == SumFailures(s.emitted) + s.window.failures
  {
  }

  lemma CountAppend(os: seq<Outcome>, o: Outcome)
    ensures CountOk(os + [o]) == CountOk(os) + (if o.Ok? then 1 else 0)
    ensures CountErr(os + [o]) == CountErr(os) + (if o.Err? then 1 else 0)
  {
  }

  /** Over any interleaving of lookups and ticks, the snapshots sent plus the
      current window hold exactly the counts the worker's lookups produced. */
  lemma {:induction false} RunConserves(s: Sampled, evs: seq<Event>)
    ensures SumSuccesses(Run(s, evs).emitted) + Run(s, evs).window.successes
            == SumSuccesses(s.emitted) + s.window.successes + CountOk(Lookups(evs))
    ensures SumFailures(Run(s, evs).emitted) + Run(s, evs).window.failures
            == SumFailures(s.emitted) + s.window.failures + CountErr(Lookups(evs))
  {
    if |evs| > 0 {
      var init := evs[..|evs| - 1];
      var last := evs[|evs| - 1];
      RunConserves(s, init);
      var before := Run(s, init);
      match last
      case Tick =>
        TickConserves(before);
        assert Run(s, evs) == TickWindow(before);
        assert Lookups(evs) == Lookups(init) + [];
        assert Lookups(evs) == Lookups(init);
      case Lookup(o) =>
        assert Lookups(evs) == Lookups(init) + [o];
        CountAppend(Lookups(init), o);
    }
  }

  /** Snapshots once sent are never altered; exactly one is sent per tick. */
  lemma {:induction false} EmittedOnlyGrows(s: Sampled, evs: seq<Event>)
    ensures s.emitted <= Run(s, evs).emitted
    ensures |Run(s, evs).emitted| == |s.emitted| + CountTicks(evs)
  {
    if |evs| > 0 {
      EmittedOnlyGrows(s, evs[..|evs| - 1]);
    }
  }

  /** From the start of the loop, the sent snapshots plus the window equal the
      record the worker would hold had the sampler never reset it. */
  lemma NoDoubleCounting(evs: seq<Event>)
    ensures SumSuccesses(Run(Start(), evs).emitted) + Run(Start(), evs).window.successes
            == RunWorker(Default(), Lookups(evs)).successes
    ensures SumFailures(Run(Start(), evs).emitted) + Run(Start(), evs).window.failures
            == RunWorker(Default(), Lookups(evs)).failures
  {
    RunConserves(Start(), evs);
    RunWorkerCounts(Default(), Lookups(evs));
  }

  /** When the last event is a tick, the window is empty and the snapshots
      alone carry every lookup the worker made. */
  lemma FinalTickDrains(evs: seq<Event>)
    requires |evs| > 0 && evs[|evs| - 1].Tick?
    ensures Run(Start(), evs).window == Default()
    ensures SumSuccesses(Run(Start(), evs).emitted) == CountOk(Lookups(evs))
    ensures SumFailures(Run(Start(), evs).emitted) == CountErr(Lookups(evs))
  {
    RunConserves(Start(), evs);
  }
}
