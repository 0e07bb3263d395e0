/** An active window was confirmed, and used, recently enough; and a code is good for one
    window or three mistakes. */
module StepUpSafety {
  import opened Clock
  import opened Options
  import opened Numerals
  import opened StepUpModel

  /** Some step of the run opened the window for `device` at `since`. */
  ghost predicate OpenedIn(s: State, steps: seq<Step>, device: string, since: Instant) {
    exists i :: OpenedAt(s, steps, i, device, since)
  }

  ghost predicate OpenedAt(s: State, steps: seq<Step>, i: int, device: string, since: Instant) {
    0 <= i < |steps| && (steps[i].Confirms? || steps[i].Presses?)
    && steps[i].later == since && Opens(Run(s, steps[..i]), steps[i], device)
  }

  /** Some step of the run opened the window or used it at `used`. */
  ghost predicate UsedIn(s: State, steps: seq<Step>, device: string, used: Instant) {
    OpenedIn(s, steps, device, used) || exists i :: UsedAt(steps, i, device, used)
  }

  ghost predicate UsedAt(steps: seq<Step>, i: int, device: string, used: Instant) {
    0 <= i < |steps| && steps[i] == Extends(device, used)
  }

  /** Every window comes from an opening, and its last use from that or from an extension. */
  ghost predicate Explained(s0: State, steps: seq<Step>) {
    var s := Run(s0, steps);
    forall device :: device in s.windows ==>
      OpenedIn(s0, steps, device, s.windows[device].since) && UsedIn(s0, steps, device, s.windows[device].lastUsed)
  }

  lemma StillOpened(s: State, steps: seq<Step>, step: Step, device: string, since: Instant)
    ensures OpenedIn(s, steps, device, since) ==> OpenedIn(s, steps + [step], device, since)
    ensures UsedIn(s, steps, device, since) ==> UsedIn(s, steps + [step], device, since)
  {
    var all := steps + [step];
    if i :| OpenedAt(s, steps, i, device, since) {
      assert all[..i] == steps[..i];
      assert OpenedAt(s, all, i, device, since);
    }
    if i :| UsedAt(steps, i, device, since) {
      assert UsedAt(all, i, device, since);
    }
  }

  lemma ExplainedAfter(s0: State, steps: seq<Step>, step: Step)
    requires Explained(s0, steps) && Lawful(Run(s0, steps), step)
    ensures Explained(s0, steps + [step])
  {
    var all, s := steps + [step], Run(s0, steps);
    assert all[..|steps|] == steps;
    var s' := Next(s, step);
    assert Run(s0, all) == s';
    hide Run, Fresh, OpenedIn, UsedIn;
    forall device | device in s'.windows
      ensures OpenedIn(s0, all, device, s'.windows[device].since)
              && UsedIn(s0, all, device, s'.windows[device].lastUsed)
    {
      if device in s.windows {
        StillOpened(s0, steps, step, device, s.windows[device].since);
        StillOpened(s0, steps, step, device, s.windows[device].lastUsed);
      }
      WindowExplained(s0, steps, step, device);
    }
  }

  lemma WindowExplained(s0: State, steps: seq<Step>, step: Step, device: string)
    requires Lawful(Run(s0, steps), step)
    requires device in Next(Run(s0, steps), step).windows
    ensures var s, all := Run(s0, steps), steps + [step];
            var w := Next(s, step).windows[device];
            && (OpenedIn(s0, all, device, w.since) || (device in s.windows && w.since == s.windows[device].since))
            && (UsedIn(s0, all, device, w.lastUsed)
                || (device in s.windows && w.lastUsed == s.windows[device].lastUsed))
  {
    var s, all, n := Run(s0, steps), steps + [step], |steps|;
    assert all[..n] == steps && all[n] == step;
    hide Run, Fresh;
    var w := Next(s, step).windows[device];
    if Opens(s, step, device) {
      assert OpenedAt(s0, all, n, device, w.since);
    } else if step.Extends? && step.device == device {
      assert UsedAt(all, n, device, w.lastUsed);
    }
  }

  lemma {:induction false} RunIsExplained(s0: State, steps: seq<Step>)
    requires s0.windows == map[] && LawfulRun(s0, steps)
    ensures Explained(s0, steps)
  {
    hide Lawful, Next;
    if steps != [] {
      var n := |steps| - 1;
      var before, last := steps[..n], steps[n];
      assert before + [last] == steps;
      LawfulBefore(s0, steps, n);
      RunIsExplained(s0, before);
      ExplainedAfter(s0, before, last);
    }
  }

  function StartOf(step: Step): Instant { step.now }

  function EndOf(step: Step): Instant {
    if step.Confirms? || step.Presses? then step.later else step.now
  }

  /** The clock never goes back. */
  ghost predicate Ordered(steps: seq<Step>) {
    && (forall i :: 0 <= i < |steps| ==> StartOf(steps[i]) <= EndOf(steps[i]))
    && (forall i, j :: 0 <= i < j < |steps| ==> EndOf(steps[i]) <= StartOf(steps[j]))
  }

  /** A window active now was opened, by that browser's code or by the button, less than thirty
      minutes ago; and was opened or used less than five minutes ago. However often it was
      extended, also after it had lapsed. */
  lemma ActiveMeansConfirmedRecently(s0: State, steps: seq<Step>, device: string, now: Instant)
    requires s0.windows == map[] && LawfulRun(s0, steps) && Ordered(steps)
    requires forall i :: 0 <= i < |steps| ==> EndOf(steps[i]) <= now
    requires IsActive(Run(s0, steps), device, now)
    ensures exists since: Instant :: OpenedIn(s0, steps, device, since) && since <= now < since + HARD_CAP
    ensures exists used: Instant :: UsedIn(s0, steps, device, used) && used <= now < used + WINDOW
  {
    RunIsExplained(s0, steps);
    hide Run, LawfulRun, Opens;
    var w := Run(s0, steps).windows[device];
    var i :| OpenedAt(s0, steps, i, device, w.since);
    assert EndOf(steps[i]) == w.since;
    if j :| UsedAt(steps, j, device, w.lastUsed) {
      assert EndOf(steps[j]) == w.lastUsed;
    } else {
      var j :| OpenedAt(s0, steps, j, device, w.lastUsed);
      assert EndOf(steps[j]) == w.lastUsed;
    }
  }

  /** Right after it is used a window is active exactly when it exists and the cap has not been
      reached: using a lapsed window that nobody asked about brings it back. */
  lemma UsingRevivesExactly(s: State, device: string, now: Instant)
    requires device in s.windows ==> s.windows[device].since <= now
    ensures IsActive(Extend(s, device, now), device, now)
            <==> device in s.windows && now < s.windows[device].since + HARD_CAP
  {
  }

  // One code.

  /** How many wrong codes the request of `device` can still take. */
  function Left(s: State, device: string): nat {
    if device in s.pending && s.pending[device].wrong < MAX_WRONG then MAX_WRONG - s.pending[device].wrong else 0
  }

  /** Requests in progress have fewer wrong codes than end one. */
  predicate Sound(s: State) {
    forall device :: device in s.pending ==> s.pending[device].wrong < MAX_WRONG
  }

  function CountOpens(s: State, steps: seq<Step>, device: string): nat
    decreases |steps|
  {
    if steps == [] then 0
    else
      var n := |steps| - 1;
      CountOpens(s, steps[..n], device) + (if Opens(Run(s, steps[..n]), steps[n], device) then 1 else 0)
  }

  function CountMisses(s: State, steps: seq<Step>, device: string): nat
    decreases |steps|
  {
    if steps == [] then 0
    else
      var n := |steps| - 1;
      CountMisses(s, steps[..n], device) + (if Misses(Run(s, steps[..n]), steps[n], device) then 1 else 0)
  }

  lemma OneStep(s: State, step: Step, device: string)
    requires Sound(s) && Lawful(s, step)
    requires !(step.Starts? && step.device == device)
    ensures var s' := Next(s, step);
            && Sound(s')
            && (if Opens(s, step, device) then Left(s, device) > 0 && Left(s', device) == 0 && !Misses(s, step, device)
                else Left(s', device) + (if Misses(s, step, device) then 1 else 0) <= Left(s, device))
  {
  }

  /** Until its browser starts again, one code opens at most one window, and its wrong tries and
      windows together are at most the tries it has left, three at the most: the third wrong one
      ends it. */
  lemma {:induction false} OneCodeOneWindow(s: State, steps: seq<Step>, device: string)
    requires Sound(s) && LawfulRun(s, steps)
    requires forall i :: 0 <= i < |steps| ==> !(steps[i].Starts? && steps[i].device == device)
    ensures Sound(Run(s, steps))
    ensures CountOpens(s, steps, device) <= 1
    ensures CountOpens(s, steps, device) == 1 ==> Left(Run(s, steps), device) == 0
    ensures CountMisses(s, steps, device) + CountOpens(s, steps, device) + Left(Run(s, steps), device)
            <= Left(s, device) <= MAX_WRONG
    decreases |steps|
  {
    hide Next, Opens, Misses, Lawful, Sound;
    if steps != [] {
      var n := |steps| - 1;
      LawfulBefore(s, steps, n);
      OneCodeOneWindow(s, steps[..n], device);
      assert steps[..n + 1] == steps;
      OneStep(Run(s, steps[..n]), steps[n], device);
    }
  }

  lemma LawfulBefore(s: State, steps: seq<Step>, n: nat)
    requires LawfulRun(s, steps) && n <= |steps|
    ensures LawfulRun(s, steps[..n])
  {
    hide Lawful, Run;
    forall i | 0 <= i < n ensures Lawful(Run(s, steps[..n][..i]), steps[..n][i]) {
      assert steps[..n][..i] == steps[..i];
    }
  }

  /** A window opens only while its code, the newest one if by the button, is less than a minute
      old, and not without one. */
  lemma OnlyFreshCodesOpen(s: State, step: Step, device: string)
    requires Lawful(s, step) && Opens(s, step, device)
    ensures device in s.pending && Elapsed(s.pending[device].started, step.now) < CODE_TTL
    ensures step.Confirms? ==> Digits(step.typed) == s.pending[device].code
    ensures step.Presses? ==>
              forall other :: other in s.pending && Elapsed(s.pending[other].started, step.now) < CODE_TTL ==>
                s.pending[other].started <= s.pending[device].started
    ensures Next(s, step).windows[device] == Window(step.later, step.later)
  {
    if step.Presses? {
      forall other | other in s.pending && Elapsed(s.pending[other].started, step.now) < CODE_TTL
        ensures s.pending[other].started <= s.pending[device].started
      {
        assert other in Fresh(s.pending, step.now);
      }
    }
  }
}
