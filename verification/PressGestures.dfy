/** Several presses in quick succession, told from the times of the presses alone. */
module PressGestures {
  import opened Clock

  const MIN_PRESSES: nat := 4
  const MAX_PRESSES: nat := 20

  function Gap(a: nat, b: nat): nat { if a <= b then b - a else a - b }

  /** The nearest number in range; one already there is kept. */
  function Clamp(required: nat): (n: nat)
    ensures MIN_PRESSES <= n <= MAX_PRESSES
    ensures MIN_PRESSES <= required <= MAX_PRESSES ==> n == required
    ensures forall m :: MIN_PRESSES <= m <= MAX_PRESSES ==> Gap(n, required) <= Gap(m, required)
  {
    if required < MIN_PRESSES then MIN_PRESSES else if required > MAX_PRESSES then MAX_PRESSES else required
  }

  /** The presses still in the window, dropped from the front until one is. */
  function DropOld(recent: seq<Instant>, now: Instant, window: nat): seq<Instant> {
    if recent == [] || Elapsed(recent[0], now) <= window then recent else DropOld(recent[1..], now, window)
  }

  datatype Pressed = Pressed(recent: seq<Instant>, fired: bool)

  function AfterPress(required: nat, window: nat, recent: seq<Instant>, now: Instant): Pressed {
    var kept := DropOld(recent, now, window) + [now];
    if |kept| >= required then Pressed([], true) else Pressed(kept, false)
  }

  class PressGesture {
    const required: nat
    const window: nat
    var recent: seq<Instant>

    constructor (presses: nat, window: nat)
      ensures required == Clamp(presses) && this.window == window && recent == []
    {
      required, this.window := Clamp(presses), window;
      recent := [];
    }

    /** Record a press; completing the gesture clears the history. */
    method Press(now: Instant) returns (fired: bool)
      modifies this
      ensures Pressed(recent, fired) == AfterPress(required, window, old(recent), now)
    {
      while recent != [] && Elapsed(recent[0], now) > window
        invariant DropOld(recent, now, window) == DropOld(old(recent), now, window)
        decreases |recent|
      {
        recent := recent[1..];
      }
      recent := recent + [now];
      fired := |recent| >= required;
      if fired {
        recent := [];
      }
    }
  }

  /** After a whole history of presses: what is remembered, where the last firing left off, and
      how often it has fired. */
  datatype Story = Story(recent: seq<Instant>, start: nat, firings: nat)

  function Tell(required: nat, window: nat, times: seq<Instant>): (s: Story)
    ensures s.start <= |times|
  {
    if times == [] then Story([], 0, 0)
    else
      var n := |times| - 1;
      var before := Tell(required, window, times[..n]);
      var p := AfterPress(required, window, before.recent, times[n]);
      if p.fired then Story([], |times|, before.firings + 1) else Story(p.recent, before.start, before.firings)
  }

  /** The last press completed the gesture. */
  predicate Fires(required: nat, window: nat, times: seq<Instant>)
    requires times != []
  {
    Tell(required, window, times).start == |times|
  }

  /** The presses of a history that lie within the window before `now`. */
  function InWindow(times: seq<Instant>, now: Instant, window: nat): seq<Instant> {
    if times == [] then []
    else (if Elapsed(times[0], now) <= window then [times[0]] else []) + InWindow(times[1..], now, window)
  }

  ghost predicate Nondecreasing(times: seq<Instant>) {
    forall i, j :: 0 <= i < j < |times| ==> times[i] <= times[j]
  }

  lemma {:induction false} AllInWindow(times: seq<Instant>, now: Instant, window: nat)
    requires forall t :: t in times ==> Elapsed(t, now) <= window
    ensures InWindow(times, now, window) == times
  {
    if times != [] {
      AllInWindow(times[1..], now, window);
      assert times == [times[0]] + times[1..];
    }
  }

  /** On presses in order, dropping from the front is filtering. */
  lemma {:induction false} DroppingIsFiltering(times: seq<Instant>, now: Instant, window: nat)
    requires Nondecreasing(times)
    ensures DropOld(times, now, window) == InWindow(times, now, window)
  {
    if times != [] {
      if Elapsed(times[0], now) <= window {
        AllInWindow(times, now, window);
      } else {
        DroppingIsFiltering(times[1..], now, window);
        assert [] + InWindow(times[1..], now, window) == InWindow(times[1..], now, window);
      }
    }
  }

  /** What was out of the window before is out of it later. */
  lemma {:induction false} FilteringAgain(times: seq<Instant>, now: Instant, later: Instant, window: nat)
    requires now <= later
    ensures InWindow(InWindow(times, now, window), later, window) == InWindow(times, later, window)
  {
    if times != [] {
      var rest := InWindow(times[1..], now, window);
      FilteringAgain(times[1..], now, later, window);
      if Elapsed(times[0], now) <= window {
        assert ([times[0]] + rest)[1..] == rest;
      } else {
        assert [] + rest == rest;
        assert [] + InWindow(times[1..], later, window) == InWindow(times[1..], later, window);
      }
    }
  }

  lemma {:induction false} FilteredStaysInOrder(times: seq<Instant>, now: Instant, window: nat)
    requires Nondecreasing(times)
    ensures Nondecreasing(InWindow(times, now, window))
    ensures forall t :: t in InWindow(times, now, window) ==> t in times
  {
    if times != [] {
      FilteredStaysInOrder(times[1..], now, window);
    }
  }

  lemma {:induction false} FilterAppend(times: seq<Instant>, t: Instant, now: Instant, window: nat)
    ensures InWindow(times + [t], now, window) == InWindow(times, now, window) + InWindow([t], now, window)
  {
    if times == [] {
      assert [] + [t] == [t];
    } else {
      FilterAppend(times[1..], t, now, window);
      assert (times + [t])[1..] == times[1..] + [t];
    }
  }

  /** One more press: what is kept of the memory is what the window keeps of the history. */
  lemma KeptIsWindow(since: seq<Instant>, last: Instant, now: Instant, window: nat)
    requires Nondecreasing(since) && last <= now
    ensures DropOld(InWindow(since, last, window), now, window) + [now] == InWindow(since + [now], now, window)
  {
    FilteredStaysInOrder(since, last, window);
    DroppingIsFiltering(InWindow(since, last, window), now, window);
    FilteringAgain(since, last, now, window);
    FilterAppend(since, now, now, window);
    assert [now][1..] == [];
    assert InWindow([now], now, window) == [now];
  }

  /** The memory is always the presses since the last firing that lie within the window before
      the latest press. */
  lemma {:induction false} MemoryIsTheWindow(required: nat, window: nat, times: seq<Instant>)
    requires Nondecreasing(times) && times != [] && required >= 1
    ensures var s := Tell(required, window, times);
            s.recent == InWindow(times[s.start..], times[|times| - 1], window)
    decreases |times|
  {
    var n := |times| - 1;
    var s := Tell(required, window, times[..n]);
    PressSinceFiring(required, window, times);
    if s.start <= n {
      assert times[s.start..] == times[..n][s.start..] + [times[n]];
    }
  }

  lemma {:induction false} PressSinceFiring(required: nat, window: nat, times: seq<Instant>)
    requires Nondecreasing(times) && times != [] && required >= 1
    ensures var n := |times| - 1;
            var s := Tell(required, window, times[..n]);
            DropOld(s.recent, times[n], window) + [times[n]] == InWindow(times[s.start..], times[n], window)
    decreases |times|, 0
  {
    var n := |times| - 1;
    var before := times[..n];
    var s := Tell(required, window, before);
    assert times[s.start..] == before[s.start..] + [times[n]];
    if n == 0 {
      KeptIsWindow([], times[n], times[n], window);
    } else {
      MemoryIsTheWindow(required, window, before);
      KeptIsWindow(before[s.start..], before[n - 1], times[n], window);
    }
  }

  /** For presses in order, the gesture fires at a press exactly when that many presses since the
      last firing, this one included, lie within the window. */
  lemma FiresExactly(required: nat, window: nat, times: seq<Instant>)
    requires Nondecreasing(times) && times != [] && required >= 1
    ensures var n := |times| - 1;
            var start := Tell(required, window, times[..n]).start;
            Fires(required, window, times) <==> |InWindow(times[start..], times[n], window)| >= required
  {
    PressSinceFiring(required, window, times);
  }

  lemma {:induction false} DroppingShortens(recent: seq<Instant>, now: Instant, window: nat)
    ensures |DropOld(recent, now, window)| <= |recent|
  {
    if recent != [] {
      DroppingShortens(recent[1..], now, window);
    }
  }

  /** The memory stays shorter than a gesture, and no press counts towards two: the firings and the
      memory together never exceed the presses made. */
  lemma {:induction false} NoPressCountsTwice(required: nat, window: nat, times: seq<Instant>)
    requires required >= 1
    ensures var s := Tell(required, window, times);
            |s.recent| < required && required * s.firings + |s.recent| <= |times|
    decreases |times|
  {
    if times != [] {
      var n := |times| - 1;
      var s := Tell(required, window, times[..n]);
      NoPressCountsTwice(required, window, times[..n]);
      DroppingShortens(s.recent, times[n], window);
      assert required * (s.firings + 1) == required * s.firings + required;
    }
  }
}
