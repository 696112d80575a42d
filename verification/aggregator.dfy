/** The reporting thread of `main`: it receives the snapshots every sampler
    sends and folds each into the grand total and into a short-lived window
    behind the live progress line. Whether the window is flushed after a
    snapshot depends on the wall clock, so it is given with the snapshot. */
module Aggregator {
  import opened Metrics

  /** One snapshot taken off the channel, and whether the clock check that
      follows it decided to print and clear the progress window. */
  datatype Delivery = Delivery(snapshot: RunDetails, flush: bool)

  /** The state of the reporting thread spawned in `main` (not the per-worker
      sampler thread): `totals` is the grand total, `window` the progress
      line's record (`temp_total`). */
  datatype ReportState = ReportState(totals: RunDetails, window: RunDetails)

  function Start(): (st: ReportState)
    ensures st.totals == Default() && st.window == Default()
  {
    ReportState(Default(), Default())
  }

  /** One iteration of the receive loop: merge into both records, then clear
      the window if the clock said so. */
  function Receive(st: ReportState, d: Delivery): (r: ReportState)
    ensures r.totals.successes == st.totals.successes + d.snapshot.successes
    ensures r.totals.failures == st.totals.failures + d.snapshot.failures
    ensures Min(st.totals.duration, d.snapshot.duration) <= r.totals.duration
            <= Max(st.totals.duration, d.snapshot.duration)
    ensures 2 * r.totals.duration <= st.totals.duration + d.snapshot.duration <= 2 * r.totals.duration + 1
    ensures !d.flush ==> 2 * r.window.duration <= st.window.duration + d.snapshot.duration
                         <= 2 * r.window.duration + 1
    ensures d.flush ==> r.window == Default()
    ensures !d.flush ==> r.window.successes == st.window.successes + d.snapshot.successes
    ensures !d.flush ==> r.window.failures == st.window.failures + d.snapshot.failures
  {
    var totals := Merge(st.totals, d.snapshot);
    var window := Merge(st.window, d.snapshot);
    ReportState(totals, if d.flush then Default() else window)
  }

  /** The state after every delivery of `ds`, first to last. */
  function Aggregate(st: ReportState, ds: seq<Delivery>): ReportState
  {
    if |ds| == 0 then st else Receive(Aggregate(st, ds[..|ds| - 1]), ds[|ds| - 1])
  }

  /** The snapshots of a sequence of deliveries, in order. */
  function Snapshots(ds: seq<Delivery>): (r: seq<RunDetails>)
    ensures |r| == |ds|
    ensures forall i :: 0 <= i < |ds| ==> r[i] == ds[i].snapshot
  {
    seq(|ds|, i requires 0 <= i < |ds| => ds[i].snapshot)
  }

  /** Some delivery of `ds` flushed the window. */
  predicate Flushed(ds: seq<Delivery>)
  {
    |ds| > 0 && (ds[|ds| - 1].flush || Flushed(ds[..|ds| - 1]))
  }

  /** The deliveries after the last flush (all of them if none flushed). */
  function SinceFlush(ds: seq<Delivery>): seq<Delivery>
  {
    if |ds| == 0 then []
    else if ds[|ds| - 1].flush then []
    else SinceFlush(ds[..|ds| - 1]) + [ds[|ds| - 1]]
  }

  lemma SnapshotsPrefix(ds: seq<Delivery>)
    requires |ds| > 0
    ensures Snapshots(ds) == Snapshots(ds[..|ds| - 1]) + [ds[|ds| - 1].snapshot]
  {
  }

  /** The grand total's counts are the sums over every snapshot received. */
  lemma {:induction false} AggregateTotals(st: ReportState, ds: seq<Delivery>)
    ensures Aggregate(st, ds).totals.successes == st.totals.successes + SumSuccesses(Snapshots(ds))
    ensures Aggregate(st, ds).totals.failures == st.totals.failures + SumFailures(Snapshots(ds))
  {
    if |ds| > 0 {
      AggregateTotals(st, ds[..|ds| - 1]);
      SnapshotsPrefix(ds);
      var s := Snapshots(ds);
      assert s[..|s| - 1] == Snapshots(ds[..|ds| - 1]);
    }
  }

  /** The progress window never affects the grand total: deliveries carrying
      the same snapshots end with the same totals whatever the flush decisions. */
  lemma {:induction false} TotalsIgnoreFlush(st: ReportState, ds: seq<Delivery>, es: seq<Delivery>)
    requires Snapshots(ds) == Snapshots(es)
    ensures Aggregate(st, ds).totals == Aggregate(st, es).totals
  {
    if |ds| > 0 {
      var n := |ds| - 1;
      assert Snapshots(ds[..n]) == Snapshots(es[..n]) by {
        SnapshotsPrefix(ds);
        SnapshotsPrefix(es);
        assert Snapshots(ds)[..n] == Snapshots(ds[..n]);
        assert Snapshots(es)[..n] == Snapshots(es[..n]);
      }
      TotalsIgnoreFlush(st, ds[..n], es[..n]);
      assert ds[n].snapshot == es[n].snapshot;
    }
  }

  /** The grand total's duration never exceeds the longest duration among
      the snapshots (or the one it started with): averaging cannot invent a
      slower latency than any sample it saw. */
  lemma {:induction false} TotalsDurationBounded(st: ReportState, ds: seq<Delivery>)
    ensures Aggregate(st, ds).totals.duration <= Max(st.totals.duration, MaxDuration(Snapshots(ds)))
  {
    if |ds| > 0 {
      TotalsDurationBounded(st, ds[..|ds| - 1]);
      SnapshotsPrefix(ds);
      var s := Snapshots(ds);
      assert s[..|s| - 1] == Snapshots(ds[..|ds| - 1]);
    }
  }

  /** After a delivery that flushes, the progress window is the zero record. */
  lemma FlushClearsWindow(st: ReportState, ds: seq<Delivery>)
    requires |ds| > 0 && ds[|ds| - 1].flush
    ensures Aggregate(st, ds).window == Default()
  {
  }

  /** The progress window's counts are those of the snapshots received since
      the last flush, plus the starting window's if nothing has flushed yet. */
  lemma {:induction false} WindowSinceFlush(st: ReportState, ds: seq<Delivery>)
    ensures Aggregate(st, ds).window.successes
            == (if Flushed(ds) then 0 else st.window.successes) + SumSuccesses(Snapshots(SinceFlush(ds)))
    ensures Aggregate(st, ds).window.failures
            == (if Flushed(ds) then 0 else st.window.failures) + SumFailures(Snapshots(SinceFlush(ds)))
  {
    if |ds| > 0 && !ds[|ds| - 1].flush {
      var init := ds[..|ds| - 1];
      WindowSinceFlush(st, init);
      var since := SinceFlush(ds);
      assert since == SinceFlush(init) + [ds[|ds| - 1]];
      SnapshotsPrefix(since);
      assert since[..|since| - 1] == SinceFlush(init);
    }
  }
}
