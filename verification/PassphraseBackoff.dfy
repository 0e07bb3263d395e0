/** How a run of wrong passphrases is slowed down: each failure doubles the wait up to a
    minute, and ten quiet minutes forget the run. */
module PassphraseBackoff {
  import opened Clock
  import opened Options

  const MAX_BACKOFF: nat := 60 * SECOND
  const BACKOFF_MEMORY: nat := 10 * 60 * SECOND
  const U32_MAX: nat := 0xffff_ffff

  datatype Streak = Streak(failures: nat, lastFailure: Option<Instant>)

  const FORGOTTEN := Streak(0, None)

  function Pow2(n: nat): nat { if n == 0 then 1 else 2 * Pow2(n - 1) }

  function Min(a: nat, b: nat): nat { if a <= b then a else b }

  /** The wait after that many failures. */
  function Delay(failures: nat): nat { Min(Pow2(Min(failures, 6)) * SECOND, MAX_BACKOFF) }

  /** The wait left; of no length at all it still counts as one. */
  function WaitRemaining(b: Streak, now: Instant): Option<nat> {
    match b.lastFailure
    case None => None
    case Some(last) =>
      if Elapsed(last, now) >= BACKOFF_MEMORY then None
      else if now <= last + Delay(b.failures) then Some(last + Delay(b.failures) - now)
      else None
  }

  function Failed(b: Streak, now: Instant): Streak {
    var failures := if b.lastFailure.Some? && Elapsed(b.lastFailure.value, now) >= BACKOFF_MEMORY
      then 0 else b.failures;
    Streak(Min(failures + 1, U32_MAX), Some(now))
  }

  class Backoff {
    var failures: nat
    var lastFailure: Option<Instant>

    constructor ()
      ensures View() == FORGOTTEN
    {
      failures, lastFailure := 0, None;
    }

    function View(): Streak
      reads this
    {
      Streak(failures, lastFailure)
    }

    method NoteFailure(now: Instant)
      modifies this
      ensures View() == Failed(old(View()), now)
    {
      if lastFailure.Some? && Elapsed(lastFailure.value, now) >= BACKOFF_MEMORY {
        failures := 0;
      }
      if failures < U32_MAX {
        failures := failures + 1;
      } else {
        failures := U32_MAX;
      }
      lastFailure := Some(now);
    }

    method NoteSuccess()
      modifies this
      ensures View() == FORGOTTEN
    {
      failures, lastFailure := 0, None;
    }
  }

  /** A wrong passphrase: let through by the check, noted once it has been verified. */
  datatype Attempt = Attempt(checked: Instant, failed: Instant)

  function After(b: Streak, attempts: seq<Attempt>): Streak {
    if attempts == [] then b
    else Failed(After(b, attempts[..|attempts| - 1]), attempts[|attempts| - 1].failed)
  }

  /** One at a time: each is checked once the one before has been noted, and none is refused. */
  ghost predicate OneAtATime(b: Streak, attempts: seq<Attempt>) {
    && (forall i :: 0 <= i < |attempts| ==>
          && attempts[i].checked <= attempts[i].failed
          && WaitRemaining(After(b, attempts[..i]), attempts[i].checked).None?)
    && (forall i :: 0 < i < |attempts| ==> attempts[i - 1].failed <= attempts[i].checked)
  }

  /** The promised span of n+1 failures. */
  function Span(n: nat): nat { if n == 0 then 0 else Span(n - 1) + Min(Pow2(n), 60) * SECOND }

  /** How far the first waits fall short of a minute each. */
  function Shortfall(n: nat): nat { if n == 0 then 0 else Shortfall(n - 1) + MAX_BACKOFF - Delay(n) }

  lemma {:induction false} PowersGrow(n: nat)
    requires n >= 6
    ensures Pow2(n) >= 64
  {
    if n > 6 {
      PowersGrow(n - 1);
    }
  }

  lemma DelayIs(n: nat)
    ensures Delay(n) == Min(Pow2(n), 60) * SECOND
    ensures n <= 4 ==> Delay(n) < Delay(n + 1)
    ensures n >= 6 ==> Delay(n) == MAX_BACKOFF
  {
    if n >= 6 {
      PowersGrow(n);
    } else {
      assert Pow2(5) == 32 && Pow2(4) == 16 && Pow2(3) == 8 && Pow2(2) == 4 && Pow2(1) == 2;
    }
  }

  lemma {:induction false} DelaysGrow(m: nat, n: nat)
    requires m <= n
    ensures Delay(m) <= Delay(n)
    decreases n - m
  {
    if m < n {
      DelayIs(m);
      DelayIs(m + 1);
      DelaysGrow(m + 1, n);
    }
  }

  lemma {:induction false} ShortfallGrows(m: nat, n: nat)
    requires m <= n
    ensures Shortfall(m) <= Shortfall(n)
    decreases n
  {
    if m < n {
      ShortfallGrows(m, n - 1);
    }
  }

  lemma {:induction false} ShortfallIsSmall(n: nat)
    ensures Shortfall(n) <= 238 * SECOND
    ensures Span(n) + Shortfall(n) == n * MAX_BACKOFF
  {
    if n > 0 {
      ShortfallIsSmall(n - 1);
      DelayIs(n);
      if n <= 5 {
        assert Pow2(5) == 32 && Pow2(4) == 16 && Pow2(3) == 8 && Pow2(2) == 4 && Pow2(1) == 2;
        assert Shortfall(5) == 238 * SECOND;
        ShortfallGrows(n, 5);
      } else {
        assert Delay(n) == MAX_BACKOFF;
      }
    }
  }

  /** One more failure: it comes after the wait, or after ten minutes and starts a new run. */
  lemma OneMoreFailure(b: Streak, a: Attempt)
    requires b.lastFailure.Some? && b.failures >= 1
    requires b.lastFailure.value <= a.checked <= a.failed && WaitRemaining(b, a.checked).None?
    ensures var b', gap := Failed(b, a.failed), a.failed - b.lastFailure.value;
            && b'.lastFailure == Some(a.failed)
            && if gap >= BACKOFF_MEMORY then b'.failures == 1
               else gap > Delay(b.failures) && b'.failures == Min(b.failures + 1, U32_MAX)
  {
  }

  lemma LastAttempt(b: Streak, attempts: seq<Attempt>)
    requires |attempts| >= 2 && OneAtATime(b, attempts)
    ensures var n := |attempts| - 1;
            var before, last := attempts[..n], attempts[n];
            && OneAtATime(b, before) && After(b, attempts) == Failed(After(b, before), last.failed)
            && WaitRemaining(After(b, before), last.checked).None?
            && attempts[n - 1].failed <= last.checked <= last.failed
  {
    hide Failed, WaitRemaining;
    var n := |attempts| - 1;
    var before := attempts[..n];
    forall i | 0 <= i < n ensures WaitRemaining(After(b, before[..i]), before[i].checked).None? {
      assert before[..i] == attempts[..i];
    }
  }

  /** What the count `k` says about how much time has gone since the first of n+1 failures: a
      minute for each later one, less what the waits of the present run fall short. */
  predicate Paid(elapsed: int, k: nat, n: nat) {
    1 <= k <= U32_MAX && elapsed + Shortfall(Min(k - 1, n)) >= n * MAX_BACKOFF
  }

  lemma {:induction false} TimeIsPaid(b: Streak, attempts: seq<Attempt>)
    requires attempts != [] && OneAtATime(b, attempts)
    requires b.failures <= U32_MAX
    ensures var n, b' := |attempts| - 1, After(b, attempts);
            && b'.lastFailure == Some(attempts[n].failed)
            && Paid(attempts[n].failed - attempts[0].failed, b'.failures, n)
    decreases |attempts|
  {
    var n := |attempts| - 1;
    if n > 0 {
      hide After, OneAtATime, Failed, WaitRemaining, Paid;
      var before, last := attempts[..n], attempts[n];
      LastAttempt(b, attempts);
      TimeIsPaid(b, before);
      var b1 := After(b, before);
      var earned, gap := before[n - 1].failed - attempts[0].failed, last.failed - before[n - 1].failed;
      PaidCounts(earned, b1.failures, n - 1);
      OneMoreFailure(b1, last);
      if gap >= BACKOFF_MEMORY {
        NewRunIsPaid(b1.failures, n, earned, gap);
      } else {
        OneMoreWait(b1.failures, n, earned, gap);
      }
    }
  }

  lemma PaidCounts(elapsed: int, k: nat, n: nat)
    requires Paid(elapsed, k, n)
    ensures k >= 1
  {
  }

  lemma NewRunIsPaid(k: nat, n: nat, earned: int, gap: int)
    requires n >= 1 && Paid(earned, k, n - 1) && gap >= BACKOFF_MEMORY
    ensures Paid(earned + gap, 1, n)
  {
    ShortfallIsSmall(Min(k - 1, n - 1));
    assert (n - 1) * MAX_BACKOFF + MAX_BACKOFF == n * MAX_BACKOFF;
  }

  lemma OneMoreWait(k: nat, n: nat, earned: int, gap: int)
    requires n >= 1 && Paid(earned, k, n - 1) && gap > Delay(k)
    ensures Paid(earned + gap, Min(k + 1, U32_MAX), n)
  {
    assert (n - 1) * MAX_BACKOFF + MAX_BACKOFF == n * MAX_BACKOFF;
    if k == U32_MAX {
      DelayIs(k);
      ShortfallGrows(Min(k - 1, n - 1), Min(k - 1, n));
    } else if k <= n {
      assert Shortfall(k) == Shortfall(k - 1) + MAX_BACKOFF - Delay(k);
    } else {
      DelaysGrow(n, k);
      assert Shortfall(n) == Shortfall(n - 1) + MAX_BACKOFF - Delay(n);
    }
  }

  /** Any n+1 failures made one at a time, with no success between them, take at least
      2 + 4 + 8 + 16 + 32 + 60 + 60 + ... seconds, whatever went before and although ten quiet
      minutes forget the count. */
  lemma FailuresAreSlow(b: Streak, attempts: seq<Attempt>)
    requires attempts != [] && OneAtATime(b, attempts) && b.failures <= U32_MAX
    ensures attempts[|attempts| - 1].failed - attempts[0].failed >= Span(|attempts| - 1)
  {
    var n := |attempts| - 1;
    TimeIsPaid(b, attempts);
    ShortfallGrows(Min(After(b, attempts).failures - 1, n), n);
    ShortfallIsSmall(n);
  }
}
