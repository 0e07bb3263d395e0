/** Re-analysis of recordings: a queue behind a lock, a bounded channel of wake-ups, and one
    worker that counts the queue once per wake-up. Steps are what one thread does between two
    points where it may have to wait. */
module AnalysisModel {
  import opened Options

  datatype Status = Status(queued: seq<string>, running: Option<string>, finished: seq<string>)

  datatype Message = NewFilesQueued | RecordingFinished(name: string) | Exit

  const CHANNEL_SLOTS: nat := 5

  function InHand(s: Status): seq<string> {
    (match s.running case None => [] case Some(name) => [name]) + s.queued
  }

  function Queue(s: Status, name: string): (s': Status)
    ensures s.queued <= s'.queued
  {
    if name in s.queued || s.running == Some(name) then s else s.(queued := s.queued + [name])
  }

  predicate Queues(s: Status, name: string) { name !in s.queued && s.running != Some(name) }

  /** `any` stops at the first name that could be queued. */
  function QueueFirst(s: Status, names: seq<string>): (s': Status)
    ensures s.queued <= s'.queued
  {
    if names == [] then s
    else if Queues(s, names[0]) then Queue(s, names[0])
    else QueueFirst(s, names[1..])
  }

  /** The recordings a request for everything considers: all but the current one. */
  function Candidates(entries: seq<string>, current: Option<nat>): seq<string>
    requires current.Some? ==> current.value < |entries|
  {
    match current case None => entries case Some(i) => entries[..i] + entries[i + 1..]
  }

  function Request(s: Status, name: string, entries: seq<string>, current: Option<nat>): (s': Status)
    requires current.Some? ==> current.value < |entries|
    ensures s.queued <= s'.queued
  {
    if name == "" then QueueFirst(s, Candidates(entries, current)) else Queue(s, name)
  }

  function Dequeue(s: Status): Status
    requires s.queued != []
  {
    s.(queued := s.queued[1..], running := Some(s.queued[0]))
  }

  function FinishRunning(s: Status): Status
    requires s.running.Some?
  {
    s.(running := None, finished := s.finished + [s.running.value])
  }

  /** A request in progress holds the status lock; once it has the store's too it queues, and
      it keeps both until its wake-up is in the channel. */
  datatype Handler = NoRequest | WantsStore(name: string) | Sending

  /** The diag task sends with the store locked. */
  datatype DiagTask = Quiet | Reporting(name: string)

  datatype Worker =
    | Receiving
    | Counting
    | Batch(remaining: nat)
    | Opening(remaining: nat)      // wants the store to open the capture
    | Analysing(remaining: nat)
    | Noting(name: string)
    | Exited

  datatype System = System(
    status: Status,
    channel: seq<Message>,
    handler: Handler,
    diag: DiagTask,
    worker: Worker,
    accepted: seq<string>,    // every name ever queued, in order
    analysed: seq<string>)    // every name the worker finished, in order

  predicate StatusFree(y: System) { y.handler.NoRequest? }

  predicate StoreFree(y: System) { y.diag.Quiet? }

  predicate Room(y: System) { |y.channel| < CHANNEL_SLOTS }

  datatype Action =
    | Arrive(request: string)                                  // a request takes the status lock
    | Enter(entries: seq<string>, current: Option<nat>)        // and the store's, and queues
    | Send
    | Report(recording: string)                                // a recording has been finished
    | SendReport
    | SendExit
    | Work                                                     // the worker's next move

  predicate Enabled(y: System, a: Action) {
    match a
    case Arrive(_) => StatusFree(y)
    case Enter(entries, current) =>
      y.handler.WantsStore? && StoreFree(y) && (current.Some? ==> current.value < |entries|)
    case Send => y.handler.Sending? && (Room(y) || y.worker.Exited?)
    case Report(_) => y.diag.Quiet? && !y.handler.Sending?
    case SendReport => y.diag.Reporting? && (Room(y) || y.worker.Exited?)
    case SendExit => Room(y)
    case Work => WorkerCanMove(y)
  }

  predicate WorkerCanMove(y: System) {
    match y.worker
    case Receiving => y.channel != []
    case Counting => StatusFree(y)
    case Batch(r) => r == 0 || StatusFree(y)
    case Opening(_) => StoreFree(y) && !y.handler.Sending?
    case Analysing(_) => StatusFree(y)
    case Noting(_) => StatusFree(y)
    case Exited => false
  }

  /** The program indexes the queue and asserts that nothing is running without checking. */
  predicate WorkerIsSafe(y: System) {
    && (y.worker.Batch? && y.worker.remaining > 0 ==> y.status.queued != [] && y.status.running.None?)
    && (y.worker.Analysing? ==> y.status.running.Some?)
  }

  function WorkerStep(y: System): System
    requires WorkerCanMove(y) && WorkerIsSafe(y)
  {
    match y.worker
    case Receiving =>
      var rest := y.(channel := y.channel[1..]);
      (match y.channel[0]
       case NewFilesQueued => rest.(worker := Counting)
       case RecordingFinished(name) => rest.(worker := Noting(name))
       case Exit => rest.(worker := Exited))
    case Counting => y.(worker := Batch(|y.status.queued|))
    case Batch(r) =>
      if r == 0 then y.(worker := Receiving)
      else y.(status := Dequeue(y.status), worker := Opening(r - 1))
    case Opening(r) => y.(worker := Analysing(r))
    case Analysing(r) =>
      y.(status := FinishRunning(y.status), worker := Batch(r), analysed := y.analysed + [y.status.running.value])
    case Noting(name) =>
      y.(status := y.status.(finished := y.status.finished + [name]), worker := Receiving)
  }

  /** Sending into a channel nobody reads any more fails at once. */
  function Sent(y: System, m: Message): seq<Message> {
    if y.worker.Exited? then y.channel else y.channel + [m]
  }

  function Act(y: System, a: Action): System
    requires Enabled(y, a) && WorkerIsSafe(y)
  {
    match a
    case Arrive(name) => y.(handler := WantsStore(name))
    case Enter(entries, current) =>
      var s := Request(y.status, y.handler.name, entries, current);
      if s == y.status then y.(handler := NoRequest)
      else y.(status := s, handler := Sending, accepted := y.accepted + s.queued[|y.status.queued|..])
    case Send => y.(channel := Sent(y, NewFilesQueued), handler := NoRequest)
    case Report(name) => y.(diag := Reporting(name))
    case SendReport => y.(channel := Sent(y, RecordingFinished(y.diag.name)), diag := Quiet)
    case SendExit => y.(channel := y.channel + [Exit])
    case Work => WorkerStep(y)
  }
}
