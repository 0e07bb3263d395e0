/** The upload worker, one method for each time it takes the store's lock; between them the
    diag task may do anything. */
module UploadWorking {
  import opened Options
  import opened Names
  import opened StoreModel
  import opened CleanupModel
  import opened RecoveryModel
  import opened DaemonModel
  import opened QmdlStore
  import opened Diag

  class UploadWorker {
    var uploading: Option<Upload>

    constructor ()
      ensures uploading.None?
    {
      uploading := None;
    }

    /** The daemon while the diag task is in state `task`. */
    function View(store: RecordingStore, task: Task): Daemon
      requires store.Valid()
      reads this, store
    {
      Daemon(store.State(), task, uploading)
    }

    method PickNext(store: RecordingStore, minAge: int, o: Outside)
      requires store.Valid()
      modifies this
      ensures forall task :: View(store, task) == PickUpload(old(View(store, task)), minAge, o)
    {
      if uploading.None? {
        var name := store.GetNextUnuploadedEntry(minAge, o.now);
        if name.Some? {
          uploading := Some(Upload(name.value, map[]));
        }
      }
    }

    method TryFile(store: RecordingStore, kind: FileKind, accepted: bool, o: Outside)
      requires store.Valid()
      modifies this
      ensures forall task :: View(store, task) == UploadFile(old(View(store, task)), kind, accepted, o)
    {
      hide FileName;
      if uploading.None? || kind in uploading.value.results {
        return;
      }
      var u := uploading.value;
      var result := NotSent;
      var found := FindEntry(store.entries, u.name);
      if found.Some? {
        var p := PathOf(store.path, store.entries[found.value], kind);
        if p !in store.files {
          result := Absent(p);
        } else if p !in o.blocked && accepted {
          result := Sent(p, store.files[p]);
        }
      }
      uploading := Some(u.(results := u.results[kind := result]));
    }

    /** Once every file has been tried: give up if one was not sent, else delete or mark. */
    method Finish(store: RecordingStore, deleteAfter: bool, o: Outside)
      requires store.Valid()
      modifies this, store
      ensures store.Valid()
      ensures forall task :: View(store, task) == FinishUpload(old(View(store, task)), deleteAfter, o)
    {
      hide DeleteEntry, MarkUploaded;
      if uploading.None? || exists kind :: kind in ALL_KINDS && kind !in uploading.value.results {
        return;
      }
      var u := uploading.value;
      uploading := None;
      var allSent := true;
      for k := 0 to |ALL_KINDS|
        invariant allSent <==> forall j :: 0 <= j < k ==> !u.results[ALL_KINDS[j]].NotSent?
      {
        assert ALL_KINDS[k] in ALL_KINDS;
        if u.results[ALL_KINDS[k]].NotSent? {
          allSent := false;
        }
      }
      if !allSent {
        return;
      }
      if deleteAfter {
        var _ := store.DeleteEntry(u.name, o);
      } else {
        var _ := store.MarkEntryAsUploaded(u.name, o);
      }
    }
  }

  // What the diag task does depends on nothing the worker knows.

  function Without(d: Daemon): Daemon { d.(upload := None) }

  /** `d'` is `alone` with the upload of `d`. */
  predicate Rides(d: Daemon, d': Daemon, alone: Daemon) {
    d'.upload == d.upload && alone == Without(d')
  }

  lemma FinishingRides(d: Daemon, reason: Option<string>, o: Outside)
    ensures Rides(d, FinishEntry(d, reason, o), FinishEntry(Without(d), reason, o))
    ensures Rides(d, Stop(d, reason, o), Stop(Without(d), reason, o))
  {
    hide UpdateCurrentSize, SetStopReason, CloseCurrent, Append;
  }

  lemma MakingRoomRides(cfg: Config, d: Daemon, o: Outside)
    ensures Rides(d, MakeRoomToStart(cfg, d, o), MakeRoomToStart(cfg, Without(d), o))
  {
    hide Prune;
  }

  lemma StartingInnerRides(cfg: Config, d: Daemon, o: Outside)
    ensures var r, alone := StartInner(cfg, d, o), StartInner(cfg, Without(d), o);
            Rides(d, r.daemon, alone.daemon) && r.outcome == alone.outcome
  {
    hide FinishEntry, MakeRoomToStart, NewEntry, BeginWriting;
    var d0 := d.(task := d.task.(maxTypeSeen := 0, bytesSinceCheck := 0, lowSpaceWarned := false));
    MakingRoomRides(cfg, d0, o);
    var d1 := MakeRoomToStart(cfg, d0, o);
    FinishingRides(d1, None, o);
    var d2 := if IsRecording(d1) then FinishEntry(d1, None, o) else d1;
    var d3 := d2.(store := NewEntry(d2.store, o).store);
    if d3.store.current.Some? {
      BeginningRides(cfg, d3, o);
    }
  }

  lemma StartingRides(cfg: Config, d: Daemon, o: Outside)
    ensures var r, alone := Start(cfg, d, o), Start(cfg, Without(d), o);
            Rides(d, r.daemon, alone.daemon) && r.outcome == alone.outcome
  {
    hide StartInner;
    StartingInnerRides(cfg, d, o);
  }

  lemma BeginningRides(cfg: Config, d: Daemon, o: Outside)
    requires d.store.current.Some?
    ensures var r, alone := BeginWriting(cfg, d, o), BeginWriting(cfg, Without(d), o);
            Rides(d, r.daemon, alone.daemon) && r.outcome == alone.outcome
  {
    hide FileName, Append, Companions;
  }

  lemma RotatingRides(cfg: Config, d: Daemon, o: Outside)
    ensures Rides(d, Rotate(cfg, d, o), Rotate(cfg, Without(d), o))
  {
    hide FinishEntry, Start, Stop;
    FinishingRides(d, Some(o.wording), o);
    var d1 := FinishEntry(d, Some(o.wording), o);
    StartingRides(cfg, d1, o);
    FinishingRides(Start(cfg, d1, o).daemon, Some(o.wording), o);
  }

  lemma SwitchingRides(cfg: Config, d: Daemon, dir: string, look: Look, o: Outside)
    ensures Rides(d, SwitchStore(cfg, d, dir, look, o).daemon, SwitchStore(cfg, Without(d), dir, look, o).daemon)
  {
    hide FinishEntry, Start, OpenOrRecover;
    FinishingRides(d, Some(o.wording), o);
    StartingRides(cfg, d, o);
    var d1 := if IsRecording(d) then FinishEntry(d, Some(o.wording), o) else d;
    StartingRides(cfg, d1, o);
    StartingRides(cfg, d1.(store := OpenOrRecover(d1.store, dir, look, o).store), o);
  }

  lemma CheckingRides(cfg: Config, d: Daemon, o: Outside)
    ensures var r, alone := CheckRoom(cfg, d, o), CheckRoom(cfg, Without(d), o);
            Rides(d, r.daemon, alone.daemon) && r.stopped == alone.stopped
  {
    hide Stop, Prune;
    FinishingRides(d.(task := d.task.(bytesSinceCheck := 0)), Some(o.wording), o);
  }

  lemma ContainersRide(cfg: Config, d: Daemon, c: Container, o: Outside)
    ensures Rides(d, ProcessContainer(cfg, d, c, o), ProcessContainer(cfg, Without(d), c, o))
  {
    hide CheckRoom, WriteContainer;
    CheckingRides(cfg, d, o);
    if d.task.writer.Some? {
      WritingRides(cfg, CheckRoom(cfg, d, o).daemon, d.task.writer.value, c, o);
    }
  }

  lemma AnalysisRides(d: Daemon, w: Writer, c: Container)
    ensures Rides(d, Analysed(d, w, c), Analysed(Without(d), w, c))
  {
    hide Append;
  }

  lemma WritingRides(cfg: Config, d: Daemon, w: Writer, c: Container, o: Outside)
    ensures Rides(d, WriteContainer(cfg, d, w, c, o), WriteContainer(cfg, Without(d), w, c, o))
  {
    hide Stop, Rotate, UpdateCurrentSize, Append, Analysed;
    var torn := d.(store := d.store.(files := Append(d.store.files, w.capture, c.torn)));
    FinishingRides(torn, Some(o.wording), o);
    var s := d.store.(files := Append(d.store.files, w.capture, [c.block]));
    var d1 := d.(store := if c.fileSize.Some? then UpdateCurrentSize(s, c.fileSize.value, o).store else s);
    FinishingRides(d1, Some(o.wording), o);
    AnalysisRides(d1, w, c);
    RotatingRides(cfg, Analysed(d1, w, c), o);
  }

  /** A step of the diag task with an upload under way is its step without one, the upload left
      as it is: so the task's methods do what the whole machine's steps do. */
  lemma TaskStepsRide(cfg: Config, d: Daemon, step: Step)
    requires HandledByTask(step.event)
    ensures Rides(d, Next(cfg, d, step), Next(cfg, Without(d), step))
  {
    hide Stop, Start, SwitchStore, ProcessContainer, DeleteEntry, DeleteAllEntries;
    var o := step.o;
    match step.event
    case StartRecording => StartingRides(cfg, d.(task := d.task.(stoppedByUser := false)), o);
    case StopRecording => FinishingRides(d.(task := d.task.(stoppedByUser := true)), None, o);
    case Switch(dir, look) => SwitchingRides(cfg, d, dir, look, o);
    case Delete(name) => FinishingRides(d, None, o);
    case DeleteAll => FinishingRides(d, None, o);
    case Position(fix) =>
    case Capture(c) => ContainersRide(cfg, d, c, o);
  }
}
