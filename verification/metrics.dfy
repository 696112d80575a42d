/** The metrics record every thread of the benchmark passes around: exact
    success and failure counts and a smoothed latency in nanoseconds.
    Fixed-width integers (u64 counts, u128 duration) are modelled as `nat`. */
module Metrics {

  datatype RunDetails = RunDetails(successes: nat, failures: nat, duration: nat)

  function Min(x: nat, y: nat): nat { if x <= y then x else y }

  function Max(x: nat, y: nat): nat { if x <= y then y else x }

  /** The floored mean of two durations, the one averaging rule of the program:
      it is both the merge of two records and the per-lookup latency update. */
  function Mean2(x: nat, y: nat): (m: nat)
    ensures Min(x, y) <= m <= Max(x, y)
    ensures 2 * m <= x + y <= 2 * m + 1
  {
    (x + y) / 2
  }

  /** The all-zero record a worker and the aggregator start from. */
  function Default(): (r: RunDetails)
    ensures r.successes == 0 && r.failures == 0 && r.duration == 0
  {
    RunDetails(0, 0, 0)
  }

  /** Clearing a window: whatever it held, the result is the default record. */
  function Reset(d: RunDetails): (r: RunDetails)
    ensures r == Default()
    ensures r.successes + r.failures + r.duration == 0
  {
    d.(successes := 0, failures := 0, duration := 0)
  }

  /** `a += b`: counts add exactly, the duration becomes the floored mean. */
  function Merge(a: RunDetails, b: RunDetails): (r: RunDetails)
    ensures r.successes == a.successes + b.successes
    ensures r.failures == a.failures + b.failures
    ensures Min(a.duration, b.duration) <= r.duration <= Max(a.duration, b.duration)
    ensures 2 * r.duration <= a.duration + b.duration <= 2 * r.duration + 1
  {
    RunDetails(a.successes + b.successes, a.failures + b.failures, Mean2(b.duration, a.duration))
  }

  lemma MergeCommutative(a: RunDetails, b: RunDetails)
    ensures Merge(a, b) == Merge(b, a)
  {
  }

  /** The counts of a merge do not depend on how merges are grouped. */
  lemma MergeCountsAssociative(a: RunDetails, b: RunDetails, c: RunDetails)
    ensures Merge(Merge(a, b), c).successes == Merge(a, Merge(b, c)).successes
    ensures Merge(Merge(a, b), c).failures == Merge(a, Merge(b, c)).failures
  {
  }

  /** Merging `a` with `b` and then `c` gives the same record as merging `a`
      with the merge of `b` and `c`. */
  predicate AssociatesAt(a: RunDetails, b: RunDetails, c: RunDetails)
  {
    Merge(Merge(a, b), c) == Merge(a, Merge(b, c))
  }

  /** The duration of a merge does: grouping changes the result. Merging two
      zero-duration records and then a 4ns one gives 2ns; merging the first
      with the merge of the other two gives 1ns. */
  lemma MergeNotAssociative(a: RunDetails, b: RunDetails, c: RunDetails)
    requires a.duration == 0 && b.duration == 0 && c.duration == 4
    ensures Merge(Merge(a, b), c).duration == 2
    ensures Merge(a, Merge(b, c)).duration == 1
    ensures !AssociatesAt(a, b, c)
  {
  }

  /** Merging one after the other is order dependent: folding a 10ns record and
      then a 0ns record into a fresh total differs from the reverse order. */
  lemma MergeOrderMatters()
    ensures Merge(Merge(Default(), RunDetails(0, 0, 10)), RunDetails(0, 0, 0)).duration == 2
    ensures Merge(Merge(Default(), RunDetails(0, 0, 0)), RunDetails(0, 0, 10)).duration == 5
  {
  }

  /** `Default` is an identity of the merge for the counts only: it halves the
      duration, so it is a full identity exactly when the duration is zero. */
  lemma DefaultIdentityForCounts(a: RunDetails)
    ensures Merge(a, Default()).successes == a.successes
    ensures Merge(a, Default()).failures == a.failures
    ensures Merge(a, Default()).duration == a.duration / 2
    ensures Merge(a, Default()) == a <==> a.duration == 0
  {
  }

  /** Sum of the success counts of a sequence of records. */
  function SumSuccesses(ds: seq<RunDetails>): nat
  {
    if |ds| == 0 then 0 else SumSuccesses(ds[..|ds| - 1]) + ds[|ds| - 1].successes
  }

  /** Sum of the failure counts of a sequence of records. */
  function SumFailures(ds: seq<RunDetails>): nat
  {
    if |ds| == 0 then 0 else SumFailures(ds[..|ds| - 1]) + ds[|ds| - 1].failures
  }

  /** The longest duration among a sequence of records, 0 when it is empty. */
  function MaxDuration(ds: seq<RunDetails>): nat
  {
    if |ds| == 0 then 0 else Max(MaxDuration(ds[..|ds| - 1]), ds[|ds| - 1].duration)
  }

  lemma {:induction false} SumConcat(a: seq<RunDetails>, b: seq<RunDetails>)
    ensures SumSuccesses(a + b) == SumSuccesses(a) + SumSuccesses(b)
    ensures SumFailures(a + b) == SumFailures(a) + SumFailures(b)
    decreases |b|
  {
    if |b| == 0 {
      assert a + b == a;
    } else {
      var b' := b[..|b| - 1];
      assert (a + b)[..|a + b| - 1] == a + b';
      SumConcat(a, b');
    }
  }

  lemma SumSingleton(x: RunDetails)
    ensures SumSuccesses([x]) == x.successes
    ensures SumFailures([x]) == x.failures
  {
  }

  /** Taking the record at `k` out of a sequence takes its counts out of the sums. */
  lemma SumRemoveAt(b: seq<RunDetails>, k: nat)
    requires k < |b|
    ensures SumSuccesses(b) == SumSuccesses(b[..k] + b[k + 1..]) + b[k].successes
    ensures SumFailures(b) == SumFailures(b[..k] + b[k + 1..]) + b[k].failures
  {
    var x, b1, b2 := b[k], b[..k], b[k + 1..];
    var front := b1 + [x];
    SplitAt(b, k);
    SumConcat(front, b2);
    SumConcat(b1, [x]);
    SumConcat(b1, b2);
    SumSingleton(x);
  }

  lemma SplitAt(b: seq<RunDetails>, k: nat)
    requires k < |b|
    ensures b == (b[..k] + [b[k]]) + b[k + 1..]
  {
  }

  lemma MultisetRemoveAt(b: seq<RunDetails>, k: nat)
    requires k < |b|
    ensures multiset(b[..k] + b[k + 1..]) == multiset(b) - multiset{b[k]}
  {
    SplitAt(b, k);
  }

  /** The sums depend only on which records there are, not on their order:
      snapshots arriving in any interleaving add up to the same counts. */
  lemma {:induction false} SumPermutation(a: seq<RunDetails>, b: seq<RunDetails>)
    requires multiset(a) == multiset(b)
    ensures SumSuccesses(a) == SumSuccesses(b)
    ensures SumFailures(a) == SumFailures(b)
    decreases |a|
  {
    if |a| == 0 {
      assert |b| == |multiset(b)| == 0;
    } else {
      var x := a[|a| - 1];
      var a' := a[..|a| - 1];
      assert a == a' + [x];
      assert x in multiset(b);
      var k :| 0 <= k < |b| && b[k] == x;
      var rest := b[..k] + b[k + 1..];
      MultisetRemoveAt(b, k);
      assert multiset(a') == multiset(a) - multiset{x};
      SumPermutation(a', rest);
      SumRemoveAt(b, k);
    }
  }
}
