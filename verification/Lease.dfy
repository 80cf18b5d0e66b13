/** The lease arithmetic of a dispatched job. Deadlines are real milliseconds: the control plane
    reports seconds, the gateway multiplies by 1000 and rounds down only where it says so. */
module Lease {
  const MAX_HEARTBEAT_FAILURES: nat := 2

  function Max(a: int, b: int): int { if a < b then b else a }
  function Min(a: int, b: int): int { if a < b then a else b }

  /** Time kept free before the deadline so that a child can still be aborted. */
  function AbortGrace(deadline: real, now: int): (g: int)
    ensures 25 <= g <= 5_000
  {
    Max(25, Min(5_000, ((deadline - now as real) / 4.0).Floor))
  }

  /** How long one heartbeat may take. */
  function BeatTimeout(controlTimeout: int, remaining: real, grace: int): int {
    Max(25, Min(controlTimeout, Max(25, (remaining - grace as real).Floor)))
  }

  /** The delay before the next heartbeat. */
  function BeatDelay(interval: int, deadline: real, now: int): int {
    Min(interval, Max(1, ((deadline - now as real) / 3.0).Floor))
  }

  /** A heartbeat is started only with more than the grace left. It is then cut off by the deadline
      it began under, and by the grace before it whenever that leaves the minimum of 25 ms. */
  lemma BeatEndsInTime(controlTimeout: int, deadline: real, now: int, grace: int)
    requires controlTimeout >= 25 && grace >= 25 && deadline - now as real > grace as real
    ensures var cutoff := now + BeatTimeout(controlTimeout, deadline - now as real, grace);
            && (now + 25) as real <= cutoff as real <= deadline
            && (deadline - now as real - grace as real >= 25.0 ==> (cutoff + grace) as real <= deadline)
            && cutoff <= now + controlTimeout
  {
  }

  /** Two thirds of the remaining lease are left when the next heartbeat is due. */
  lemma BeatComesEarly(interval: int, deadline: real, now: int)
    requires interval >= 1
    ensures var delay := BeatDelay(interval, deadline, now);
            && 1 <= delay <= interval
            && (deadline - now as real >= 3.0 ==> 3.0 * delay as real <= deadline - now as real)
  {
  }

  /** With a lease long enough to start with, the first heartbeat always finds more than the grace left. */
  lemma FirstBeatHasTime(interval: int, deadline: real, claimed: int)
    requires interval >= 1 && deadline - claimed as real >= 60.0
    ensures deadline - (claimed + BeatDelay(interval, deadline, claimed)) as real > AbortGrace(deadline, claimed) as real
  {
    BeatComesEarly(interval, deadline, claimed);
  }

  /** The grace is a quarter of the lease, in whole milliseconds, kept between 25 and 5000. */
  lemma GraceIsQuarter(deadline: real, now: int)
    ensures var grace, lease := AbortGrace(deadline, now), deadline - now as real;
            && (grace > 25 ==> 4.0 * grace as real <= lease)
            && (grace < 5_000 ==> 4.0 * (grace + 1) as real > lease)
  {
  }

  /** The delay before a heartbeat is a third of what is left, in whole milliseconds, but at least one and at
      the most the interval. */
  lemma DelayIsThird(interval: int, deadline: real, now: int)
    requires interval >= 1
    ensures var delay, left := BeatDelay(interval, deadline, now), deadline - now as real;
            && 1 <= delay <= interval
            && (delay > 1 ==> 3.0 * delay as real <= left)
            && (delay < interval ==> 3.0 * (delay + 1) as real > left)
  {
  }
}
