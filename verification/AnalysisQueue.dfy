/** In every interleaving of requests, reports and the worker: the worker never meets an empty
    queue, names finish in the order they were accepted, and no wake-up is lost. */
module AnalysisQueue {
  import opened Options
  import opened AnalysisModel

  ghost predicate Distinct(names: seq<string>) {
    forall i, j :: 0 <= i < j < |names| ==> names[i] != names[j]
  }

  /** How many queued names the worker will still take without another wake-up. */
  function Owed(w: Worker): nat {
    match w
    case Batch(r) => r
    case Opening(r) => r
    case Analysing(r) => r
    case _ => 0
  }

  predicate Busy(w: Worker) { w.Opening? || w.Analysing? }

  /** Names the worker will not take unprompted have a wake-up pending or being sent. */
  predicate Woken(y: System) {
    y.worker.Exited? || |y.status.queued| <= Owed(y.worker)
    || NewFilesQueued in y.channel || y.handler.Sending? || y.worker.Counting?
  }

  ghost predicate Inv(y: System) {
    && Owed(y.worker) <= |y.status.queued|
    && (y.status.running.Some? <==> Busy(y.worker))
    && Distinct(InHand(y.status))
    && y.accepted == y.analysed + InHand(y.status)
    && Woken(y)
    && |y.channel| <= CHANNEL_SLOTS
    && (y.handler.Sending? ==> y.diag.Quiet?)
  }

  /** How the program starts: nothing queued, the existing recordings finished. */
  predicate Initial(y: System) {
    && y.status.queued == [] && y.status.running.None?
    && y.channel == [] && y.handler.NoRequest? && y.diag.Quiet? && y.worker.Receiving?
    && y.accepted == [] && y.analysed == []
  }

  lemma InitialIsInvariant(y: System)
    requires Initial(y)
    ensures Inv(y)
  {
  }

  // What a request queues.

  lemma {:induction false} QueueFirstAddsOne(s: Status, names: seq<string>)
    ensures var s' := QueueFirst(s, names);
            if forall n :: n in names ==> !Queues(s, n) then s' == s
            else exists i :: FirstQueued(s, names, i) && s' == s.(queued := s.queued + [names[i]])
  {
    if names != [] && !Queues(s, names[0]) {
      QueueFirstAddsOne(s, names[1..]);
      if i :| FirstQueued(s, names[1..], i) && QueueFirst(s, names) == s.(queued := s.queued + [names[1..][i]]) {
        var k := i + 1;
        assert FirstQueued(s, names, k);
      }
    } else if names != [] {
      assert FirstQueued(s, names, 0);
    }
  }

  ghost predicate FirstQueued(s: Status, names: seq<string>, i: int) {
    && 0 <= i < |names| && Queues(s, names[i])
    && forall j :: 0 <= j < i ==> !Queues(s, names[j])
  }

  /** A request for everything queues one name at most, so it leaves every candidate in hand
      exactly when no two of them were waiting to be queued. */
  lemma EverythingIsQueuedExactly(s: Status, entries: seq<string>, current: Option<nat>)
    requires current.Some? ==> current.value < |entries|
    ensures var s', names := Request(s, "", entries, current), Candidates(entries, current);
            && |s'.queued| <= |s.queued| + 1
            && ((forall n :: n in names ==> !Queues(s', n))
                <==> (forall m, n :: m in names && n in names && Queues(s, m) && Queues(s, n) ==> m == n))
  {
    var s', names := Request(s, "", entries, current), Candidates(entries, current);
    QueueFirstAddsOne(s, names);
    if i :| FirstQueued(s, names, i) && s' == s.(queued := s.queued + [names[i]]) {
      forall n ensures Queues(s', n) <==> Queues(s, n) && n != names[i] {
      }
    }
  }

  lemma RequestAddsOne(s: Status, name: string, entries: seq<string>, current: Option<nat>)
    requires current.Some? ==> current.value < |entries|
    ensures var s' := Request(s, name, entries, current);
            s' == s || exists n :: Queues(s, n) && s' == s.(queued := s.queued + [n])
  {
    if name == "" {
      QueueFirstAddsOne(s, Candidates(entries, current));
    } else if s != Queue(s, name) {
      assert Queues(s, name);
    }
  }

  // Every step.

  lemma EnterKeepsInv(y: System, entries: seq<string>, current: Option<nat>)
    requires Inv(y) && Enabled(y, Enter(entries, current)) && WorkerIsSafe(y)
    ensures Inv(Act(y, Enter(entries, current)))
  {
    RequestAddsOne(y.status, y.handler.name, entries, current);
    var s := Request(y.status, y.handler.name, entries, current);
    hide Request;
    if n :| Queues(y.status, n) && s == y.status.(queued := y.status.queued + [n]) {
      assert s.queued[|y.status.queued|..] == [n];
      assert InHand(s) == InHand(y.status) + [n];
      assert n !in InHand(y.status);
      assert y.analysed + (InHand(y.status) + [n]) == (y.analysed + InHand(y.status)) + [n];
    }
  }

  lemma WorkKeepsInv(y: System)
    requires Inv(y) && WorkerCanMove(y)
    ensures WorkerIsSafe(y) && Inv(WorkerStep(y))
  {
    var s, y' := y.status, WorkerStep(y);
    match y.worker
    case Receiving =>
      assert y.channel == [y.channel[0]] + y.channel[1..];
    case Batch(r) =>
      if r > 0 {
        assert InHand(y'.status) == InHand(s);
      }
    case Analysing(_) => FinishingMovesOn(y.analysed, s.running.value, s.queued);
    case _ => assert InHand(y'.status) == InHand(s);
  }

  lemma FinishingMovesOn(analysed: seq<string>, running: string, queued: seq<string>)
    ensures analysed + ([running] + queued) == (analysed + [running]) + queued
    ensures Distinct([running] + queued) ==> Distinct(queued)
    ensures [] + queued == queued
  {
    if Distinct([running] + queued) {
      forall i, j | 0 <= i < j < |queued| ensures queued[i] != queued[j] {
        var names, i', j' := [running] + queued, i + 1, j + 1;
        assert names[i'] == queued[i] && names[j'] == queued[j];
      }
    }
  }

  lemma ActKeepsInv(y: System, a: Action)
    requires Inv(y) && Enabled(y, a)
    ensures WorkerIsSafe(y) && Inv(Act(y, a))
  {
    match a
    case Enter(entries, current) => EnterKeepsInv(y, entries, current);
    case Work => WorkKeepsInv(y);
    case Send => assert Sent(y, NewFilesQueued) == y.channel || Sent(y, NewFilesQueued)[|y.channel|] == NewFilesQueued;
    case _ =>
      assert NewFilesQueued in y.channel ==> NewFilesQueued in Act(y, a).channel;
  }

  /** Each action can be taken where the run has got to. */
  ghost predicate Possible(y: System, actions: seq<Action>)
    decreases |actions|
  {
    actions != [] ==>
      && Enabled(y, actions[0]) && WorkerIsSafe(y)
      && Possible(Act(y, actions[0]), actions[1..])
  }

  ghost function After(y: System, actions: seq<Action>): System
    requires Possible(y, actions)
    decreases |actions|
  {
    if actions == [] then y else After(Act(y, actions[0]), actions[1..])
  }

  /** Every action is enabled when its turn comes; whether the worker is then safe is left to
      be shown. */
  ghost predicate Scheduled(y: System, actions: seq<Action>)
    decreases |actions|
  {
    actions != [] ==>
      Enabled(y, actions[0]) && (WorkerIsSafe(y) ==> Scheduled(Act(y, actions[0]), actions[1..]))
  }

  /** Whatever is scheduled, the worker never removes from an empty queue or finds something
      running when it starts, and the invariant holds afterwards. */
  lemma {:induction false} EveryInterleavingIsSafe(y: System, actions: seq<Action>)
    requires Inv(y) && Scheduled(y, actions)
    ensures Possible(y, actions) && Inv(After(y, actions)) && WorkerIsSafe(After(y, actions))
    decreases |actions|
  {
    hide Act, Enabled, Inv;
    if actions != [] {
      ActKeepsInv(y, actions[0]);
      EveryInterleavingIsSafe(Act(y, actions[0]), actions[1..]);
    } else {
      SafeNow(y);
    }
  }

  lemma SafeNow(y: System)
    requires Inv(y)
    ensures WorkerIsSafe(y)
  {
  }

  /** From a fresh start: names finish in the order they were accepted, the ones not finished are
      running or queued in that order and without repetition, and a worker waiting for a message
      over a queue that is not empty has its wake-up pending or being sent. */
  lemma AcceptedNamesFinishInOrder(y: System, actions: seq<Action>)
    requires Initial(y) && Scheduled(y, actions)
    ensures Possible(y, actions)
    ensures var y' := After(y, actions);
            && y'.accepted == y'.analysed + InHand(y'.status)
            && Distinct(InHand(y'.status))
            && (y'.worker.Receiving? && y'.status.queued != [] ==>
                  NewFilesQueued in y'.channel || y'.handler.Sending?)
  {
    InitialIsInvariant(y);
    EveryInterleavingIsSafe(y, actions);
    hide After, Possible, Scheduled;
  }

  // Moving on.

  /** Some thread that is under way can move, new arrivals aside. */
  ghost predicate CanMove(y: System) {
    || (exists entries, current :: Enabled(y, Enter(entries, current)))
    || Enabled(y, Send) || Enabled(y, SendReport) || Enabled(y, Work)
  }

  predicate AtRest(y: System) {
    y.handler.NoRequest? && y.diag.Quiet? && y.worker.Receiving? && y.channel == []
  }

  /** The channel is full, somebody holding a lock waits for room in it, and the worker that would
      make the room waits for that lock. */
  predicate Deadlocked(y: System) {
    && !Room(y) && !y.worker.Exited?
    && !WorkerCanMove(y) && (y.handler.Sending? || y.diag.Reporting?)
  }

  /** Nothing can move exactly when there is nothing to do, or in that one deadlock; with room
      in the channel there is none. */
  lemma StuckExactly(y: System)
    requires Inv(y) && !y.worker.Exited?
    ensures !CanMove(y) <==> AtRest(y) || Deadlocked(y)
    ensures Room(y) ==> CanMove(y) || AtRest(y)
  {
    assert y.handler.WantsStore? && y.diag.Quiet? ==> Enabled(y, Enter([], None));
  }

  /** Once deadlocked, for ever: nothing but further requests can happen, and they only wait. */
  lemma {:induction false} DeadlockIsForEver(y: System, actions: seq<Action>)
    requires Deadlocked(y) && Possible(y, actions)
    ensures Deadlocked(After(y, actions))
    decreases |actions|
  {
    if actions != [] {
      DeadlockIsForEver(Act(y, actions[0]), actions[1..]);
    }
  }

  /** Whenever the channel is full it is near: a name is accepted while the worker is about to
      count, and the handler keeps the lock the count needs. */
  lemma FullChannelDeadlocks(y: System, name: string)
    requires y.worker.Counting? && !Room(y)
    requires y.handler.NoRequest? && y.diag.Quiet? && name != "" && Queues(y.status, name)
    ensures var actions := [Arrive(name), Enter([], None)];
            Possible(y, actions) && Deadlocked(After(y, actions))
  {
    var y1 := Act(y, Arrive(name));
    Alone(y1, Enter([], None));
    Before(y, Arrive(name), [Enter([], None)]);
  }

  lemma Before(y: System, a: Action, actions: seq<Action>)
    requires Enabled(y, a) && WorkerIsSafe(y) && Possible(Act(y, a), actions)
    ensures Possible(y, [a] + actions) && After(y, [a] + actions) == After(Act(y, a), actions)
  {
    hide Act, Enabled;
    assert ([a] + actions)[1..] == actions;
  }

  lemma Alone(y: System, a: Action)
    requires Enabled(y, a) && WorkerIsSafe(y)
    ensures Possible(y, [a]) && After(y, [a]) == Act(y, a)
  {
    hide Act, Enabled;
    assert [a][1..] == [];
    assert Possible(Act(y, a), []) && After(Act(y, a), []) == Act(y, a);
  }

  lemma {:induction false} InTurn(y: System, first: seq<Action>, rest: seq<Action>)
    requires Possible(y, first) && Possible(After(y, first), rest)
    ensures Possible(y, first + rest) && After(y, first + rest) == After(After(y, first), rest)
    decreases |first|
  {
    hide Act, Enabled;
    if first == [] {
      assert first + rest == rest;
    } else {
      InTurn(Act(y, first[0]), first[1..], rest);
      Before(y, first[0], first[1..] + rest);
      assert first + rest == [first[0]] + (first[1..] + rest);
    }
  }

  /** Recordings finished one after the other. */
  function Reports(recording: string, k: nat): seq<Action> {
    if k == 0 then [] else [Report(recording), SendReport] + Reports(recording, k - 1)
  }

  lemma {:induction false} ReportsFill(y: System, recording: string, k: nat)
    requires y.worker.Counting? && y.diag.Quiet? && y.handler.NoRequest? && |y.channel| + k <= CHANNEL_SLOTS
    ensures var actions := Reports(recording, k);
            && Possible(y, actions)
            && |After(y, actions).channel| == |y.channel| + k
            && After(y, actions) == y.(channel := After(y, actions).channel)
    decreases k
  {
    if k > 0 {
      var rest := Reports(recording, k - 1);
      var y1 := Act(y, Report(recording));
      var y2 := Act(y1, SendReport);
      ReportsFill(y2, recording, k - 1);
      hide After, Possible, Act;
      Before(y1, SendReport, rest);
      Before(y, Report(recording), [SendReport] + rest);
      assert Reports(recording, k) == [Report(recording)] + ([SendReport] + rest);
    }
  }

  /** It can be reached from a fresh start: a recording is queued and the worker woken; five
      recordings finish before it takes the lock to count; and another is queued. */
  lemma DeadlockIsReachable(y: System, first: string, recording: string, second: string)
    requires Initial(y) && first != "" && second != "" && first != second
    ensures var waking := [Arrive(first), Enter([], None), Send, Work];
            var actions := waking + Reports(recording, CHANNEL_SLOTS) + [Arrive(second), Enter([], None)];
            Possible(y, actions) && Deadlocked(After(y, actions))
  {
    var waking, reports := [Arrive(first), Enter([], None), Send, Work], Reports(recording, CHANNEL_SLOTS);
    var y1 := Waking(y, first);
    hide After, Possible, Reports, Act;
    ReportsFill(y1, recording, CHANNEL_SLOTS);
    InTurn(y, waking, reports);
    FullChannelDeadlocks(After(y1, reports), second);
    InTurn(y, waking + reports, [Arrive(second), Enter([], None)]);
  }

  lemma Waking(y: System, name: string) returns (y': System)
    requires Initial(y) && name != ""
    ensures var actions := [Arrive(name), Enter([], None), Send, Work];
            Possible(y, actions) && y' == After(y, actions)
    ensures y' == y.(status := y.status.(queued := [name]), accepted := [name], worker := Counting)
  {
    hide After, Possible;
    var y1 := Act(y, Arrive(name));
    var y2 := Act(y1, Enter([], None));
    var y3 := Act(y2, Send);
    y' := Act(y3, Work);
    assert [Send] + [Work] == [Send, Work];
    assert [Enter([], None)] + [Send, Work] == [Enter([], None), Send, Work];
    assert [Arrive(name)] + [Enter([], None), Send, Work] == [Arrive(name), Enter([], None), Send, Work];
    Alone(y3, Work);
    Before(y2, Send, [Work]);
    Before(y1, Enter([], None), [Send, Work]);
    Before(y, Arrive(name), [Enter([], None), Send, Work]);
  }

  /** The worker left to itself. */
  ghost function WorkOn(y: System): System
    requires Inv(y) && y.handler.NoRequest? && y.diag.Quiet? && !y.worker.Exited? && Exit !in y.channel
    decreases |y.channel|, if y.worker.Counting? then 1 else 0, |y.status.queued|, Rank(y.worker)
  {
    if AtRest(y) then y
    else
      WorkKeepsInv(y);
      WorkOn(WorkerStep(y))
  }

  function Rank(w: Worker): nat {
    match w
    case Opening(_) => 3
    case Analysing(_) => 2
    case Batch(_) => 1
    case Noting(_) => 1
    case _ => 0
  }

  /** No wake-up lost means no name left behind: the worker alone empties the channel and the
      queue and finishes every accepted name. */
  lemma {:induction false} EverythingAcceptedIsFinished(y: System)
    requires Inv(y) && y.handler.NoRequest? && y.diag.Quiet? && !y.worker.Exited? && Exit !in y.channel
    ensures var y' := WorkOn(y);
            && AtRest(y') && y'.status.queued == [] && y'.status.running.None?
            && y'.analysed == y'.accepted == y.accepted
    decreases |y.channel|, if y.worker.Counting? then 1 else 0, |y.status.queued|, Rank(y.worker)
  {
    if AtRest(y) {
      assert y.status.queued == [];
    } else {
      WorkKeepsInv(y);
      EverythingAcceptedIsFinished(WorkerStep(y));
    }
  }
}
