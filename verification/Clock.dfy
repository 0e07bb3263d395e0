/** The monotonic clock, in nanoseconds. */
module Clock {
  type Instant = nat

  const SECOND: nat := 1_000_000_000

  /** Time since an instant; one that is still to come counts as no time. */
  function Elapsed(since: Instant, now: Instant): nat { if now >= since then now - since else 0 }
}
