/** What the upload worker knows while it works, and what its deletion takes: in runs that give no
    new recording the uploaded one's name, and in those that do. */
module Uploads {
  import opened Options
  import opened Names
  import opened StoreModel
  import opened StoreLemmas
  import opened CleanupModel
  import opened RecoveryModel
  import opened DaemonModel
  import opened Lifecycle
  import opened Starting
  import opened Safety
  import opened Runs

  /** `p` is called like the capture of the recording `name`. */
  predicate CaptureOf(p: Path, name: string) {
    p.file == FileName(Qmdl, name, true) || p.file == FileName(Qmdl, name, false)
  }

  /** The upload worker's knowledge still holds: its recording is not the current one, and the
      capture it found is on disk with the bytes it sent, or gone, or was absent and still is. */
  ghost predicate UploadTrue(d: Daemon) {
    d.upload.Some? ==>
      var u := d.upload.value;
      && !IsCurrent(d.store, u.name)
      && (Qmdl in u.results ==> CaptureResultTrue(d.store.files, u.name, u.results[Qmdl]))
  }

  ghost predicate CaptureResultTrue(files: Files, name: string, r: UploadResult) {
    match r
    case NotSent => true
    case Absent(p) => CaptureOf(p, name) && p !in files
    case Sent(p, data) => CaptureOf(p, name) && (p in files ==> files[p] == data)
  }

  ghost predicate Inv(d: Daemon) {
    && WriterLinked(d)
    && (d.task.stoppedByUser ==> !IsRecording(d))
    && UploadTrue(d)
  }

  /** The step does not give a new recording the name of the one being uploaded. */
  ghost predicate Fresh(d: Daemon, step: Step) {
    d.upload.Some? ==> !Tried(d.store, step.o, d.upload.value.name)
  }

  /** While a recording with a printed name is being uploaded, a step is fresh exactly when the clock
      does not come back to its second with its sequence number in reach: never within one run of
      the program, whose sequence numbers only grow. */
  lemma FreshExactly(d: Daemon, step: Step, seconds: int, sequence: nat)
    requires d.upload.Some? && d.upload.value.name == EntryName(seconds, sequence)
    ensures Fresh(d, step) <==>
              forall j: nat :: j < MAX_ATTEMPTS ==>
                !(step.o.clock(j) == seconds && d.store.nextSequence + j == sequence)
    ensures sequence < d.store.nextSequence ==> Fresh(d, step)
  {
    hide EntryName;
    forall j: nat | j < MAX_ATTEMPTS && NameAt(d.store, step.o, j) == d.upload.value.name
      ensures step.o.clock(j) == seconds && d.store.nextSequence + j == sequence
    {
      SequenceDistinguishes(step.o.clock(j), d.store.nextSequence + j, seconds, sequence);
    }
    forall j: nat | j < MAX_ATTEMPTS && step.o.clock(j) == seconds && d.store.nextSequence + j == sequence
      ensures NameAt(d.store, step.o, j) == d.upload.value.name
    {
    }
  }

  lemma OtherNameOtherCapture(d: Daemon, p: Path, name: string)
    requires WriterLinked(d) && CaptureOf(p, name) && !IsCurrent(d.store, name)
    ensures !IsLive(d, p) && IsCapture(p.file)
  {
    CaptureFiles(Qmdl, name, true);
    CaptureFiles(Qmdl, name, false);
    if IsLive(d, p) {
      var e := d.store.entries[d.store.current.value];
      CaptureNameInjective(e.name, e.compressed, name, p.file == FileName(Qmdl, name, true));
      assert false;
    }
  }

  lemma TriedElsewhere(s: Store, o: Outside, p: Path, name: string)
    requires CaptureOf(p, name) && !Tried(s, o, name)
    ensures !TriedCapture(s, o, p)
  {
    if j: nat :| j < MAX_ATTEMPTS && p.file == FileName(Qmdl, NameAt(s, o, j), true) {
      CaptureNameInjective(NameAt(s, o, j), true, name, p.file == FileName(Qmdl, name, true));
      assert false;
    }
  }

  lemma UploadStaysTrue(d: Daemon, d': Daemon, step: Step, gone: iset<Path>)
    requires WriterLinked(d) && UploadTrue(d) && Fresh(d, step)
    requires Advance(d, d', step.o, gone) && d'.upload == d.upload
    ensures UploadTrue(d')
  {
    hide FileName, IsCapture, Lists, SavedLists, StaysListed, Preserved, Tried, TriedCapture, WriterLinked, CaptureOf;
    if d.upload.Some? {
      var u := d.upload.value;
      if Qmdl in u.results && !u.results[Qmdl].NotSent? {
        var p := u.results[Qmdl].path;
        OtherNameOtherCapture(d, p, u.name);
        TriedElsewhere(d.store, step.o, p, u.name);
        assert p in d'.store.files ==> p in Captures(d'.store.files);
        assert p in d.store.files <==> p in Captures(d.store.files);
      }
    }
  }

  /** The link, the stop and the upload's knowledge are kept by every step that names nothing anew
      after the recording being uploaded. */
  lemma InvKept(cfg: Config, d: Daemon, step: Step)
    requires Inv(d) && Fresh(d, step)
    ensures Inv(Next(cfg, d, step)) && !Unlinks(d, step)
  {
    hide *;
    InvParts(d);
    OthersAreUploaded(d, step);
    StepKeepsLinkExactly(cfg, d, step);
    StopHolds(cfg, d, step);
    UploadKept(cfg, d, step);
    InvFrom(Next(cfg, d, step));
  }

  lemma InvFrom(d: Daemon)
    requires WriterLinked(d) && UploadTrue(d) && (d.task.stoppedByUser ==> !IsRecording(d))
    ensures Inv(d)
  {
  }

  lemma OthersAreUploaded(d: Daemon, step: Step)
    requires WriterLinked(d) && UploadTrue(d)
    ensures !Unlinks(d, step)
  {
    hide Takes;
    if d.upload.Some? {
      OthersAreNotTaken(d, d.upload.value.name, step.o);
    }
  }

  lemma UploadKept(cfg: Config, d: Daemon, step: Step)
    requires Inv(d) && Fresh(d, step)
    ensures UploadTrue(Next(cfg, d, step))
  {
    hide *;
    var d' := Next(cfg, d, step);
    InvParts(d);
    StepAdvances(cfg, d, step);
    StopHolds(cfg, d, step);
    if d'.upload == d.upload {
      UploadStaysTrue(d, d', step, MayRemove(cfg, d, step));
    } else {
      UploadMoves(cfg, d, step);
    }
  }

  lemma InvParts(d: Daemon)
    requires Inv(d)
    ensures WriterLinked(d) && Attached(d) && UploadTrue(d)
    ensures d.task.stoppedByUser ==> d.task.writer.None? && !IsRecording(d)
  {
    LinkedIsAttached(d);
  }

  /** The worker's own steps: it picks a recording that is not current, and what it notes of the
      capture is what it found. */
  lemma UploadMoves(cfg: Config, d: Daemon, step: Step)
    requires UploadTrue(d)
    requires step.event.Pick? || step.event.Put? || step.event.Conclude?
    ensures Next(cfg, d, step).upload != d.upload ==> UploadTrue(Next(cfg, d, step))
  {
  }

  // Every run.

  /** No step of the run names a recording after the one then being uploaded. */
  ghost predicate FreshRun(cfg: Config, d: Daemon, steps: seq<Step>)
    decreases |steps|
  {
    steps == [] || (Fresh(d, steps[0]) && FreshRun(cfg, Next(cfg, d, steps[0]), steps[1..]))
  }

  /** A daemon that has just been started on an opened store. */
  predicate AtRest(d: Daemon) {
    d.task.writer.None? && d.store.current.None? && d.upload.None?
  }

  /** Some step of the run is the upload worker deleting the file the writer holds. */
  ghost predicate EverUnlinks(cfg: Config, d: Daemon, steps: seq<Step>)
    decreases |steps|
  {
    steps != [] && (Unlinks(d, steps[0]) || EverUnlinks(cfg, Next(cfg, d, steps[0]), steps[1..]))
  }

  /** A run from rest in which nothing is named after the recording being uploaded never takes the
      writer's file, and what the worker has noted of its capture stays true. */
  lemma {:induction false} FreshRunsNeverUnlink(cfg: Config, d: Daemon, steps: seq<Step>)
    requires AtRest(d) || Inv(d)
    requires FreshRun(cfg, d, steps)
    ensures !EverUnlinks(cfg, d, steps) && Inv(Run(cfg, d, steps))
    decreases |steps|
  {
    assert Inv(d) by { RestIsInvariant(d); }
    hide Next, Inv, Fresh, Unlinks;
    if steps != [] {
      InvKept(cfg, d, steps[0]);
      FreshRunsNeverUnlink(cfg, Next(cfg, d, steps[0]), steps[1..]);
    }
  }

  lemma RestIsInvariant(d: Daemon)
    ensures AtRest(d) ==> Inv(d)
  {
  }

  // What goes after an upload.

  ghost predicate SameUpload(d: Daemon, d': Daemon) {
    && d.upload.Some? && d'.upload.Some? && d'.upload.value.name == d.upload.value.name
    && Qmdl in d.upload.value.results && Qmdl in d'.upload.value.results
    && d'.upload.value.results[Qmdl] == d.upload.value.results[Qmdl]
  }

  /** Until it concludes, the worker remembers what it sent. */
  lemma WorkerRemembers(cfg: Config, d: Daemon, step: Step)
    requires Attached(d) && (d.task.stoppedByUser ==> !IsRecording(d)) && SameUpload(d, d) && !step.event.Conclude?
    ensures SameUpload(d, Next(cfg, d, step))
  {
    StopHolds(cfg, d, step);
    hide Attached, TryUpload;
    if !step.event.Pick? && !step.event.Put? {
      hide Next;
    }
  }

  lemma {:induction false} SentBytesStay(cfg: Config, d: Daemon, steps: seq<Step>, p: Path)
    requires Attached(d) && (d.task.stoppedByUser ==> !IsRecording(d)) && SameUpload(d, d)
    requires forall i :: 0 <= i < |steps| ==> !steps[i].event.Conclude?
    ensures var d' := Run(cfg, d, steps);
            && SameUpload(d, d')
            && (p in Captures(d.store.files) && !IsLive(d, p) && !EverRemovable(cfg, d, steps, p) ==>
                  p in d'.store.files && d'.store.files[p] == d.store.files[p])
    decreases |steps|
  {
    hide Next, Attached, IsCapture, MayRemove, Advance;
    if steps != [] {
      var d1 := Next(cfg, d, steps[0]);
      StepAdvances(cfg, d, steps[0]);
      AttachedAfter(d, d1, steps[0].o, MayRemove(cfg, d, steps[0]));
      StopHolds(cfg, d, steps[0]);
      WorkerRemembers(cfg, d, steps[0]);
      SentBytesStay(cfg, d1, steps[1..], p);
    }
  }

  /** The worker sends a closed capture `p`; any steps follow that do not conclude the upload; then its
      deletion removes a capture `q`. If that is not `p`, because another entry has come under the
      name, it goes unsent. If nothing had a reason to remove `p` in between, what goes is what was
      sent, byte for byte, exactly if it is `p`. */
  lemma {:induction false} OnlyUploadedCapturesGo(cfg: Config, d: Daemon, put: Step, steps: seq<Step>, o: Outside,
                                                  p: Path, q: Path)
    requires Attached(d) && (d.task.stoppedByUser ==> !IsRecording(d)) && !IsLive(d, p)
    requires d.upload.Some? && put.event.Put? && put.event.kind == Qmdl && Qmdl !in d.upload.value.results
    requires forall i :: 0 <= i < |steps| ==> !steps[i].event.Conclude?
    requires var d1 := Next(cfg, d, put);
             && d1.upload.value.results[Qmdl].Sent? && d1.upload.value.results[Qmdl].path == p
             && var d2 := Run(cfg, d1, steps);
                q in Captures(d2.store.files) && q !in FinishUpload(d2, true, o).store.files
    ensures var d2 := Run(cfg, Next(cfg, d, put), steps);
            && d2.upload.Some? && AllSent(d2.upload.value) && q in NamedCaptures(d2.store, d.upload.value.name)
            && (q != p ==> d2.upload.value.results[Qmdl] != Sent(q, d2.store.files[q]))
            && (!EverRemovable(cfg, Next(cfg, d, put), steps, p) ==>
                  (d2.upload.value.results[Qmdl] == Sent(q, d2.store.files[q]) <==> q == p))
  {
    var d1 := Next(cfg, d, put);
    SendingACapture(cfg, d, put, p);
    hide Next, Attached, IsCapture, NamedCaptures;
    SentBytesStay(cfg, d1, steps, p);
    var d2 := Run(cfg, d1, steps);
    hide Run, EverRemovable, DeleteEntry, MarkUploaded;
    assert Qmdl in ALL_KINDS by { assert ALL_KINDS[0] == Qmdl; }
    if d2.upload.Some? {
      OthersSurviveDeletion(d2.store, d2.upload.value.name, o);
    }
  }

  lemma SendingACapture(cfg: Config, d: Daemon, put: Step, p: Path)
    requires Attached(d) && d.upload.Some? && put.event.Put?
             && put.event.kind == Qmdl && Qmdl !in d.upload.value.results
    requires var r := Next(cfg, d, put).upload.value.results[Qmdl]; r.Sent? && r.path == p
    ensures var d1 := Next(cfg, d, put);
            && d1 == d.(upload := d1.upload) && Attached(d1) && SameUpload(d1, d1)
            && d1.upload.value.name == d.upload.value.name
            && p in Captures(d1.store.files)
            && d1.upload.value.results[Qmdl] == Sent(p, d1.store.files[p])
  {
    if i :| FindEntry(d.store.entries, d.upload.value.name) == Some(i) {
      CaptureFiles(Qmdl, d.store.entries[i].name, d.store.entries[i].compressed);
    }
  }

  /** A storage switch between upload and deletion: the recording of that name in the new
      directory goes although nothing of it was sent. */
  lemma SwitchMidUploadDeletesUnsent(cfg: Config, d: Daemon, dir: string, look: Look, o: Outside, i: nat)
    requires d.task.stoppedByUser && !IsRecording(d) && o.stuck == {}
    requires d.upload.Some? && AllSent(d.upload.value) && d.upload.value.results[Qmdl].path.dir == d.store.dir
    requires dir != d.store.dir && dir in d.store.manifests && look.reachable && look.manifest.Loads?
    requires FindEntry(d.store.manifests[dir], d.upload.value.name) == Some(i)
    ensures var p := CapturePath(dir, d.store.manifests[dir][i]);
            && p !in Run(cfg, d, [Step(Switch(dir, look), o), Step(Conclude(true), o)]).store.files
            && d.upload.value.results[Qmdl].path != p
  {
    var switching, concluding := Step(Switch(dir, look), o), Step(Conclude(true), o);
    var d1 := Next(cfg, d, switching);
    assert d1 == d.(store := OpenAs(d.store, dir, d.store.manifests[dir]));
    TwoSteps(cfg, d, switching, concluding);
    assert AllTried(d.upload.value);
    hide Next, Run;
    ConcludingDeletes(cfg, d1, i, o);
  }

  /** Without a switch: of two recordings of one name the first is sent, then deleted by hand; the
      deletion after the upload takes the second, of which nothing was sent. */
  lemma DeletionMidUploadDeletesUnsent(cfg: Config, d: Daemon, i: nat, j: nat, o: Outside)
    requires d.upload.Some? && AllSent(d.upload.value) && o.stuck == {}
    requires var name := d.upload.value.name;
             && FindEntry(d.store.entries, name) == Some(i) && !IsCurrent(d.store, name)
             && j < |Without(d.store.entries, i)| && FindEntry(Without(d.store.entries, i), name) == Some(j)
    requires d.upload.value.results[Qmdl].path == CapturePath(d.store.dir, d.store.entries[i])
    requires Without(d.store.entries, i)[j].compressed != d.store.entries[i].compressed
    ensures var p := CapturePath(d.store.dir, Without(d.store.entries, i)[j]);
            && p !in Run(cfg, d, [Step(Delete(d.upload.value.name), o), Step(Conclude(true), o)]).store.files
            && d.upload.value.results[Qmdl].path != p
  {
    var e, other := d.store.entries[i], Without(d.store.entries, i)[j];
    var deleting, concluding := Step(Delete(e.name), o), Step(Conclude(true), o);
    var d1 := Next(cfg, d, deleting);
    assert d1 == d.(store := DeleteEntry(d.store, e.name, o).store);
    if CapturePath(d.store.dir, e) == CapturePath(d.store.dir, other) {
      CaptureNameInjective(e.name, e.compressed, other.name, other.compressed);
    }
    FirstDeleted(d.store, i, o);
    TwoSteps(cfg, d, deleting, concluding);
    assert AllTried(d.upload.value);
    hide Next, Run, Without, DeleteEntry, CapturePath;
    ConcludingDeletes(cfg, d1, j, o);
  }

  lemma FirstDeleted(s: Store, i: nat, o: Outside)
    requires i < |s.entries| && FindEntry(s.entries, s.entries[i].name) == Some(i) && o.stuck == {}
    ensures var s' := DeleteEntry(s, s.entries[i].name, o).store; s'.entries == Without(s.entries, i) && s'.dir == s.dir
  {
    hide EntryPaths, RemoveFiles, FinishSidecar, Without;
  }

  lemma TwoSteps(cfg: Config, d: Daemon, a: Step, b: Step)
    ensures Run(cfg, d, [a, b]) == Next(cfg, Next(cfg, d, a), b)
  {
    hide Next;
    assert [a, b][1..] == [b] && [b][1..] == [];
    assert Run(cfg, Next(cfg, d, a), [b]) == Run(cfg, Next(cfg, Next(cfg, d, a), b), []);
  }

  lemma ConcludingDeletes(cfg: Config, d: Daemon, i: nat, o: Outside)
    requires d.upload.Some? && AllTried(d.upload.value) && AllSent(d.upload.value) && o.stuck == {}
    requires FindEntry(d.store.entries, d.upload.value.name) == Some(i)
    ensures CapturePath(d.store.dir, d.store.entries[i]) !in Next(cfg, d, Step(Conclude(true), o)).store.files
  {
    var e := d.store.entries[i];
    CaptureFiles(Qmdl, e.name, e.compressed);
    DeletesExactly(d.store, i, o);
    DeleteEntryEffect(d.store, e.name, o);
    hide FileName, DeleteEntry;
    DeletedCapturesAreOld(d.store, e.name, o);
  }
}
