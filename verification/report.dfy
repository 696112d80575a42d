/** The integer figure of the final report. */
module Report {

  /** Requests per second: the successes divided by the run time in whole
      seconds, rounded down. Dividing by a zero run time panics in the
      program, so callers must give a positive one. */
  function Throughput(successes: nat, timeSecs: nat): (r: nat)
    requires timeSecs > 0
    ensures r * timeSecs <= successes < (r + 1) * timeSecs
  {
    successes / timeSecs
  }

  /** Cancelling a positive factor from a strict inequality. */
  lemma CancelFactor(a: nat, b: nat, t: nat)
    requires t > 0 && a * t < b * t
    ensures a < b
  {
  }

  /** The throughput is the only whole number of requests per second that
      the successes and the run time allow. */
  lemma ThroughputUnique(successes: nat, timeSecs: nat, q: nat)
    requires timeSecs > 0
    requires q * timeSecs <= successes < (q + 1) * timeSecs
    ensures q == Throughput(successes, timeSecs)
  {
    var r := Throughput(successes, timeSecs);
    CancelFactor(q, r + 1, timeSecs);
    CancelFactor(r, q + 1, timeSecs);
  }
}
