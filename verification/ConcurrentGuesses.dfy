/** Wrong passphrases sent at the same time: checks that all come before the first failure is noted
    all pass, however many there are. */
module ConcurrentGuesses {
  import opened Clock
  import opened Options
  import opened PassphraseBackoff
  import opened PairingModel

  ghost predicate Distinct(ids: seq<nat>) { forall i, j :: 0 <= i < j < |ids| ==> ids[i] != ids[j] }

  /** Requests that have all just been sent, each with a passphrase that is not the owner's. */
  ghost predicate WrongGuesses(dg: Digests, y: System, ids: seq<nat>, g: Given) {
    && Distinct(ids) && y.unit.auth.ownerHash.Some?
    && forall i :: 0 <= i < |ids| ==>
         && ids[i] in y.calls && y.calls[ids[i]].GuessWaiting?
         && !(g.hashed && Verifies(dg, y.calls[ids[i]].passphrase, y.unit.auth.ownerHash.value))
  }

  /** Each request goes through its next section, one after the other. */
  function Round(ids: seq<nat>, g: Given): (events: seq<Event>)
    ensures |events| == |ids| && forall i :: 0 <= i < |ids| ==> events[i] == Section(ids[i], g)
  {
    seq(|ids|, i requires 0 <= i < |ids| => Section(ids[i], g))
  }

  /** Where a wrong guess is after `n` sections: checked, looked up, refused. */
  function Guess(call: Call, hash: string, n: nat): Call
    requires call.GuessWaiting?
  {
    match n
    case 0 => call
    case 1 => GuessLooking(call.passphrase, call.goal)
    case 2 => GuessVerifying(call.passphrase, hash, call.goal)
    case _ => Finished(Denied(WrongPassphrase))
  }

  /** `y'` is `y` with the first `k` guesses `n + 1` sections on and the others `n`. */
  ghost predicate Progressed(dg: Digests, y: System, y': System, ids: seq<nat>, g: Given, n: nat, k: nat)
    requires WrongGuesses(dg, y, ids, g) && k <= |ids|
  {
    && y'.unit.auth == y.unit.auth && (n == 0 ==> y'.unit == y.unit)
    && forall i :: 0 <= i < |ids| ==>
         ids[i] in y'.calls
         && y'.calls[ids[i]] == Guess(y.calls[ids[i]], y.unit.auth.ownerHash.value, if i < k then n + 1 else n)
  }

  lemma OneSection(dg: Digests, y: System, y': System, ids: seq<nat>, g: Given, n: nat, k: nat)
    requires WrongGuesses(dg, y, ids, g) && k < |ids| && n < 3
    requires WaitRemaining(y.unit.backoff, g.now).None?
    requires Progressed(dg, y, y', ids, g, n, k)
    ensures Progressed(dg, y, Next(dg, y', Section(ids[k], g)), ids, g, n, k + 1)
  {
    hide WaitRemaining, Verifies, Failed;
  }

  lemma {:induction false} OneRound(dg: Digests, y: System, y': System, ids: seq<nat>, g: Given, n: nat, k: nat)
    requires WrongGuesses(dg, y, ids, g) && k <= |ids| && n < 3
    requires WaitRemaining(y.unit.backoff, g.now).None?
    requires Progressed(dg, y, y', ids, g, n, 0)
    ensures Progressed(dg, y, Run(dg, y', Round(ids, g)[..k]), ids, g, n, k)
  {
    hide Next, Progressed, WaitRemaining, WrongGuesses;
    if k > 0 {
      OneRound(dg, y, y', ids, g, n, k - 1);
      var events := Round(ids, g)[..k];
      assert events[..k - 1] == Round(ids, g)[..k - 1] && events[k - 1] == Section(ids[k - 1], g);
      OneSection(dg, y, Run(dg, y', events[..k - 1]), ids, g, n, k - 1);
    }
  }

  lemma NextRound(dg: Digests, y: System, y': System, ids: seq<nat>, g: Given, n: nat)
    requires WrongGuesses(dg, y, ids, g)
    ensures Progressed(dg, y, y, ids, g, 0, 0)
    ensures Progressed(dg, y, y', ids, g, n, |ids|) ==> Progressed(dg, y, y', ids, g, n + 1, 0)
  {
  }

  /** Any number of guesses checked before the first failure is noted are all verified and refused
      as wrong, at one and the same instant; none is told to wait. */
  lemma GuessesTogetherAreNotSlowed(dg: Digests, y: System, ids: seq<nat>, g: Given)
    requires WrongGuesses(dg, y, ids, g) && WaitRemaining(y.unit.backoff, g.now).None?
    ensures var round := Round(ids, g);
            var y' := Run(dg, Run(dg, Run(dg, y, round), round), round);
            forall i :: 0 <= i < |ids| ==> ids[i] in y'.calls && y'.calls[ids[i]] == Finished(Denied(WrongPassphrase))
  {
    hide Run, Round, WaitRemaining;
    var round := Round(ids, g);
    assert round[..|ids|] == round;
    var y1 := Run(dg, y, round);
    var y2 := Run(dg, y1, round);
    NextRound(dg, y, y, ids, g, 0);
    OneRound(dg, y, y, ids, g, 0, |ids|);
    NextRound(dg, y, y1, ids, g, 0);
    OneRound(dg, y, y1, ids, g, 1, |ids|);
    NextRound(dg, y, y2, ids, g, 1);
    OneRound(dg, y, y2, ids, g, 2, |ids|);
  }

  /** One after the other, the second is told to wait. */
  lemma GuessesInTurnAreSlowed(dg: Digests, y: System, a: nat, b: nat, g: Given)
    requires WrongGuesses(dg, y, [a, b], g) && WaitRemaining(y.unit.backoff, g.now).None?
    ensures var round := Round([a, a, a, b], g);
            var y' := Run(dg, y, round);
            && a in y'.calls && y'.calls[a] == Finished(Denied(WrongPassphrase))
            && b in y'.calls && y'.calls[b].Finished? && y'.calls[b].response.Denied?
            && y'.calls[b].response.error.Backoff?
  {
    assert [a, b][0] == a && [a, b][1] == b;
    hide Verifies;
    var events := Round([a, a, a, b], g);
    var y1 := Next(dg, y, events[0]);
    var y2 := Next(dg, y1, events[1]);
    var y3 := Next(dg, y2, events[2]);
    var y4 := Next(dg, y3, events[3]);
    assert y3.calls[a] == Finished(Denied(WrongPassphrase));
    assert WaitRemaining(y3.unit.backoff, g.now).Some?;
    FourEvents(dg, y, events);
  }

  lemma FourEvents(dg: Digests, y: System, events: seq<Event>)
    requires |events| == 4
    ensures Run(dg, y, events)
            == Next(dg, Next(dg, Next(dg, Next(dg, y, events[0]), events[1]), events[2]), events[3])
  {
    hide Next;
    assert Run(dg, y, events[..0]) == y;
    assert events[..1][..0] == events[..0] && events[..2][..1] == events[..1] && events[..3][..2] == events[..2];
    assert Run(dg, y, events[..1]) == Next(dg, y, events[0]);
    assert Run(dg, y, events[..2]) == Next(dg, Run(dg, y, events[..1]), events[1]);
    assert Run(dg, y, events[..3]) == Next(dg, Run(dg, y, events[..2]), events[2]);
  }
}
