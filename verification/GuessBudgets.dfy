/** How many wrong guesses a setup token and an add-a-device code can take, over whole runs. */
module GuessBudgets {
  import opened Clock
  import opened Options
  import opened Numerals
  import opened CleanupModel
  import opened PairingModel

  /** Fewer wrong tries than close the window or burn the code. */
  predicate Sound(u: Unit) {
    && (u.window.Some? ==> u.window.value.wrong < MAX_SETUP_ATTEMPTS)
    && (u.code.Some? ==> u.code.value.wrong < MAX_CODE_ATTEMPTS)
  }

  function TokenTriesLeft(u: Unit): nat {
    if u.window.Some? && u.window.value.wrong < MAX_SETUP_ATTEMPTS then MAX_SETUP_ATTEMPTS - u.window.value.wrong else 0
  }

  function CodeTriesLeft(u: Unit): nat {
    if u.code.Some? && u.code.value.wrong < MAX_CODE_ATTEMPTS then MAX_CODE_ATTEMPTS - u.code.value.wrong else 0
  }

  /** The event tries a token on an open window. */
  predicate TriesToken(y: System, e: Event) {
    && e.Section? && e.id in y.calls && y.calls[e.id].SetupProving? && y.calls[e.id].how.ByToken?
    && WindowOpen(y.unit, e.given.now)
  }

  predicate MissesToken(y: System, e: Event) {
    TriesToken(y, e) && NormalizeToken(y.calls[e.id].how.token) != y.unit.window.value.token
  }

  /** The event makes a new token; opening a window that is still open does not. */
  predicate NewToken(y: System, e: Event) {
    e.Section? && e.id in y.calls && y.calls[e.id].OpenWriting? && !WindowOpen(y.unit, e.given.now)
  }

  predicate TriesCode(y: System, e: Event) {
    && e.Section? && e.id in y.calls && y.calls[e.id].CodeWaiting?
    && y.unit.code.Some? && Elapsed(y.unit.code.value.created, e.given.now) < PAIR_CODE_TTL
  }

  predicate MissesCode(y: System, e: Event) {
    TriesCode(y, e) && Digits(y.calls[e.id].code) != y.unit.code.value.code
  }

  predicate HitsCode(y: System, e: Event) {
    TriesCode(y, e) && Digits(y.calls[e.id].code) == y.unit.code.value.code
  }

  predicate NewCode(y: System, e: Event) { e.Mint? }

  /** How often something happens in a run. */
  function Count(dg: Digests, y: System, events: seq<Event>, what: (System, Event) -> bool): nat
    decreases |events|
  {
    if events == [] then 0
    else
      var n := |events| - 1;
      Count(dg, y, events[..n], what) + (if what(Run(dg, y, events[..n]), events[n]) then 1 else 0)
  }

  ghost predicate Never(dg: Digests, y: System, events: seq<Event>, what: (System, Event) -> bool) {
    forall i :: 0 <= i < |events| ==> !what(Run(dg, y, events[..i]), events[i])
  }

  lemma NeverBefore(dg: Digests, y: System, events: seq<Event>, what: (System, Event) -> bool)
    requires Never(dg, y, events, what) && events != []
    ensures var n := |events| - 1;
            Never(dg, y, events[..n], what) && !what(Run(dg, y, events[..n]), events[n])
  {
    hide Run;
    var n := |events| - 1;
    forall i | 0 <= i < n ensures !what(Run(dg, y, events[..n][..i]), events[..n][i]) {
      assert events[..n][..i] == events[..i];
    }
  }

  lemma TokenStep(dg: Digests, y: System, e: Event)
    requires Sound(y.unit) && !NewToken(y, e)
    ensures var u := Next(dg, y, e).unit;
            TokenTriesLeft(u) + (if MissesToken(y, e) then 1 else 0) <= TokenTriesLeft(y.unit)
  {
  }

  lemma CodeStep(dg: Digests, y: System, e: Event)
    requires Sound(y.unit) && !NewCode(y, e)
    ensures var u := Next(dg, y, e).unit;
            && CodeTriesLeft(u) + (if MissesCode(y, e) then 1 else 0) <= CodeTriesLeft(y.unit)
            && (HitsCode(y, e) ==> !MissesCode(y, e) && CodeTriesLeft(u) == 0 < CodeTriesLeft(y.unit))
  {
  }

  lemma SoundStep(dg: Digests, y: System, e: Event)
    requires Sound(y.unit)
    ensures Sound(Next(dg, y, e).unit)
  {
    hide Trust, Relabel, Retain, Verifies, AcceptablePassphrase, PressApproved, AwaitsPress;
  }

  lemma {:induction false} RunStaysSound(dg: Digests, y: System, events: seq<Event>)
    requires Sound(y.unit)
    ensures Sound(Run(dg, y, events).unit)
    decreases |events|
  {
    hide Next, Sound;
    if events != [] {
      var n := |events| - 1;
      RunStaysSound(dg, y, events[..n]);
      SoundStep(dg, Run(dg, y, events[..n]), events[n]);
    }
  }

  /** However often its window is opened again, one setup token takes at most ten wrong tries; and
      when it has none left, the window is closed and every token is refused. */
  lemma {:induction false} TenTriesPerToken(dg: Digests, y: System, events: seq<Event>)
    requires Sound(y.unit) && Never(dg, y, events, NewToken)
    ensures var u := Run(dg, y, events).unit;
            && Count(dg, y, events, MissesToken) + TokenTriesLeft(u) <= TokenTriesLeft(y.unit) <= MAX_SETUP_ATTEMPTS
            && (TokenTriesLeft(u) == 0 ==>
                  forall typed, now :: CheckSetupToken(u, typed, now).error == Some(WindowClosed))
    decreases |events|
  {
    hide Next, Sound, NewToken, MissesToken;
    RunStaysSound(dg, y, events);
    if events != [] {
      var n := |events| - 1;
      NeverBefore(dg, y, events, NewToken);
      TenTriesPerToken(dg, y, events[..n]);
      RunStaysSound(dg, y, events[..n]);
      TokenStep(dg, Run(dg, y, events[..n]), events[n]);
    }
    if TokenTriesLeft(Run(dg, y, events).unit) == 0 {
      NoTriesNoToken(Run(dg, y, events).unit);
    }
  }

  lemma NoTriesNoToken(u: Unit)
    requires Sound(u) && TokenTriesLeft(u) == 0
    ensures forall typed, now :: CheckSetupToken(u, typed, now).error == Some(WindowClosed)
  {
  }

  lemma NoTriesNoCode(u: Unit)
    requires Sound(u) && CodeTriesLeft(u) == 0
    ensures forall typed, now :: TakeCode(u, typed, now).error == Some(NoCode)
  {
  }

  /** One add-a-device code is accepted at most once, and wrong tries and acceptance together are
      at most five; burnt or used, it is refused even when right. */
  lemma {:induction false} FiveTriesPerCode(dg: Digests, y: System, events: seq<Event>)
    requires Sound(y.unit) && Never(dg, y, events, NewCode)
    ensures var u := Run(dg, y, events).unit;
            && Count(dg, y, events, HitsCode) <= 1
            && Count(dg, y, events, MissesCode) + Count(dg, y, events, HitsCode) + CodeTriesLeft(u)
               <= CodeTriesLeft(y.unit) <= MAX_CODE_ATTEMPTS
            && (Count(dg, y, events, HitsCode) == 1 ==> CodeTriesLeft(u) == 0)
            && (CodeTriesLeft(u) == 0 ==> forall typed, now :: TakeCode(u, typed, now).error == Some(NoCode))
    decreases |events|
  {
    hide Next, Sound, MissesCode, HitsCode;
    RunStaysSound(dg, y, events);
    if events != [] {
      var n := |events| - 1;
      NeverBefore(dg, y, events, NewCode);
      FiveTriesPerCode(dg, y, events[..n]);
      RunStaysSound(dg, y, events[..n]);
      CodeStep(dg, Run(dg, y, events[..n]), events[n]);
    }
    if CodeTriesLeft(Run(dg, y, events).unit) == 0 {
      NoTriesNoCode(Run(dg, y, events).unit);
    }
  }

  // What somebody types.

  /** Crockford's alphabet: digits and capitals without I, L, O and U. */
  predicate InAlphabet(c: char) {
    '0' <= c <= '9' || ('A' <= c <= 'Z' && c != 'I' && c != 'L' && c != 'O' && c != 'U')
  }

  predicate Separates(c: char) { IsWhitespace(c) || c == '-' }

  lemma NoSeparators(c: char)
    requires Separates(c)
    ensures !InAlphabet(c)
  {
  }

  lemma MeantIsMeant(c: char)
    requires !Separates(c)
    ensures !Separates(Meant(c)) && Meant(Meant(c)) == Meant(c)
    ensures InAlphabet(c) ==> Meant(c) == c
  {
  }

  lemma NormalizesFirst(c: char, rest: string)
    ensures NormalizeToken([c] + rest)
            == if Separates(c) then NormalizeToken(rest) else [Meant(c)] + NormalizeToken(rest)
  {
    hide IsWhitespace, Meant;
    assert ([c] + rest)[1..] == rest;
    assert "" + NormalizeToken(rest) == NormalizeToken(rest);
  }

  /** Case, spaces, hyphens and the usual mistakes do not matter: normalizing again changes
      nothing, and a token of the alphabet is its own normal form. */
  lemma {:induction false} NormalizingIsIdempotent(typed: string)
    ensures NormalizeToken(NormalizeToken(typed)) == NormalizeToken(typed)
    ensures (forall c :: c in typed ==> InAlphabet(c)) ==> NormalizeToken(typed) == typed
  {
    if typed != "" {
      hide *;
      var c, rest := typed[0], typed[1..];
      assert typed == [c] + rest;
      NormalizingIsIdempotent(rest);
      NormalizesFirst(c, rest);
      if Separates(c) {
        NoSeparators(c);
      } else {
        MeantIsMeant(c);
        NormalizesFirst(Meant(c), NormalizeToken(rest));
      }
    }
  }
}
