/** In every run, what the store holds could be rebuilt from the captures alone. */
module RecoverableRuns {
  import opened Options
  import opened Names
  import opened StoreModel
  import opened CleanupModel
  import opened RecoveryModel
  import opened DaemonModel
  import opened Recovery

  lemma SameManifestStaysRecorded(s: Store, s': Store)
    requires Recorded(s) && s'.entries == s.entries && s'.manifests == s.manifests
    ensures Recorded(s')
  {
  }

  lemma StopWritingStaysRecorded(d: Daemon, o: Outside)
    requires Recorded(d.store)
    ensures Recorded(StopWriting(d, o).store)
  {
    hide Recorded, HoldsNoMore, UpdateCurrentSize, SetStopReason, Append;
    if d.task.writer.Some? {
      var s := d.store.(files := Append(d.store.files, d.task.writer.value.capture, o.trailer));
      SameManifestStaysRecorded(d.store, s);
      if o.closedSize.Some? {
        UpdatesHoldNoMore(s, o.closedSize.value, "", o);
        HoldingNoMore(s, UpdateCurrentSize(s, o.closedSize.value, o).store);
      }
    }
  }

  lemma FinishStaysRecorded(d: Daemon, reason: Option<string>, o: Outside)
    requires Recorded(d.store)
    ensures Recorded(FinishEntry(d, reason, o).store) && Recorded(Stop(d, reason, o).store)
  {
    hide Recorded, HoldsNoMore, StopWriting, UpdateCurrentSize, SetStopReason;
    StopWritingStaysRecorded(d, o);
    var s := StopWriting(d, o).store;
    var s1 := if reason.Some? then SetStopReason(s, reason.value, o).store else s;
    if reason.Some? {
      UpdatesHoldNoMore(s, 0, reason.value, o);
      HoldingNoMore(s, s1);
    }
    SameManifestStaysRecorded(s1, CloseCurrent(s1, o).store);
  }

  lemma MakingRoomStaysRecorded(cfg: Config, d: Daemon, o: Outside)
    requires Recorded(d.store)
    ensures Recorded(MakeRoomToStart(cfg, d, o).store)
    ensures forall target :: Recorded(Prune(d.store, target, cfg.uploads, o).store)
  {
    hide Recorded, PruneNames;
    forall target ensures Recorded(Prune(d.store, target, cfg.uploads, o).store) {
      PruningStaysRecorded(d.store, EntryNames(d.store.entries), target, cfg.uploads, o);
    }
  }

  lemma BeginKeepsManifest(cfg: Config, d: Daemon, o: Outside)
    requires d.store.current.Some?
    ensures var s := BeginWriting(cfg, d, o).daemon.store;
            s.entries == d.store.entries && s.manifests == d.store.manifests
  {
    hide Companions, Append, FileName;
  }

  lemma StartStaysRecorded(cfg: Config, d: Daemon, o: Outside)
    requires Recorded(d.store)
    ensures Recorded(Start(cfg, d, o).daemon.store)
  {
    hide Recorded, MakeRoomToStart, FinishEntry, NewEntry, BeginWriting;
    var d0 := d.(task := d.task.(maxTypeSeen := 0, bytesSinceCheck := 0, lowSpaceWarned := false));
    MakingRoomStaysRecorded(cfg, d0, o);
    var d1 := MakeRoomToStart(cfg, d0, o);
    FinishStaysRecorded(d1, None, o);
    var d2 := if IsRecording(d1) then FinishEntry(d1, None, o) else d1;
    NewEntryStaysRecorded(d2.store, o);
    var d3 := d2.(store := NewEntry(d2.store, o).store);
    if d3.store.current.Some? {
      BeginKeepsManifest(cfg, d3, o);
      SameManifestStaysRecorded(d3.store, BeginWriting(cfg, d3, o).daemon.store);
    }
  }

  lemma RotateStaysRecorded(cfg: Config, d: Daemon, o: Outside)
    requires Recorded(d.store)
    ensures Recorded(Rotate(cfg, d, o).store)
  {
    hide Recorded, Start, FinishEntry, Stop;
    FinishStaysRecorded(d, Some(o.wording), o);
    var r := Start(cfg, FinishEntry(d, Some(o.wording), o), o);
    StartStaysRecorded(cfg, FinishEntry(d, Some(o.wording), o), o);
    FinishStaysRecorded(r.daemon, Some(o.wording), o);
  }

  lemma SwitchStaysRecorded(cfg: Config, d: Daemon, dir: string, look: Look, o: Outside)
    requires Recorded(d.store)
    ensures Recorded(SwitchStore(cfg, d, dir, look, o).daemon.store)
  {
    hide Recorded, Start, FinishEntry, OpenOrRecover;
    FinishStaysRecorded(d, Some(o.wording), o);
    StartStaysRecorded(cfg, d, o);
    var d1 := if IsRecording(d) then FinishEntry(d, Some(o.wording), o) else d;
    StartStaysRecorded(cfg, d1, o);
    OpeningStaysRecorded(d1.store, dir, look, o);
    StartStaysRecorded(cfg, d1.(store := OpenOrRecover(d1.store, dir, look, o).store), o);
  }

  lemma WritingStaysRecorded(cfg: Config, d: Daemon, w: Writer, c: Container, o: Outside)
    requires Recorded(d.store)
    ensures Recorded(WriteContainer(cfg, d, w, c, o).store)
  {
    hide Recorded, HoldsNoMore, Rotate, Stop, UpdateCurrentSize, SetStopReason, Append;
    var data := if c.written then [c.block] else c.torn;
    var d1 := d.(store := d.store.(files := Append(d.store.files, w.capture, data)));
    SameManifestStaysRecorded(d.store, d1.store);
    var d2 := d1.(store := if c.written && c.fileSize.Some? then UpdateCurrentSize(d1.store, c.fileSize.value, o).store
                           else d1.store);
    if c.written && c.fileSize.Some? {
      UpdatesHoldNoMore(d1.store, c.fileSize.value, "", o);
      HoldingNoMore(d1.store, d2.store);
    }
    FinishStaysRecorded(d2, Some(o.wording), o);
    var d3 := Analysed(d2, w, c);
    AnalysisKeepsManifest(d2, w, c);
    hide Analysed;
    SameManifestStaysRecorded(d2.store, d3.store);
    RotateStaysRecorded(cfg, d3, o);
  }

  lemma AnalysisKeepsManifest(d: Daemon, w: Writer, c: Container)
    ensures var s := Analysed(d, w, c).store; s.entries == d.store.entries && s.manifests == d.store.manifests
  {
  }

  lemma ContainerStaysRecorded(cfg: Config, d: Daemon, c: Container, o: Outside)
    requires Recorded(d.store)
    ensures Recorded(ProcessContainer(cfg, d, c, o).store)
  {
    hide Recorded, WriteContainer, Stop, Prune;
    var d0 := d.(task := d.task.(bytesSinceCheck := 0));
    FinishStaysRecorded(d0, Some(o.wording), o);
    MakingRoomStaysRecorded(cfg, d0, o);
    if d.task.writer.Some? {
      WritingStaysRecorded(cfg, CheckRoom(cfg, d, o).daemon, d.task.writer.value, c, o);
    }
  }

  /** No step, whatever it does, leaves the store holding a recording whose capture would be
      read back differently. */
  lemma StepStaysRecorded(cfg: Config, d: Daemon, step: Step)
    requires Recorded(d.store)
    ensures Recorded(Next(cfg, d, step).store)
  {
    hide Recorded, HoldsNoMore, Start, Stop, SwitchStore, ProcessContainer;
    hide DeleteEntry, DeleteAllEntries, Annotate, MarkUploaded;
    hide GpsUpdate, TryUpload;
    var o := step.o;
    match step.event
    case StartRecording => StartStaysRecorded(cfg, d.(task := d.task.(stoppedByUser := false)), o);
    case StopRecording => FinishStaysRecorded(d.(task := d.task.(stoppedByUser := true)), None, o);
    case Switch(dir, look) => SwitchStaysRecorded(cfg, d, dir, look, o);
    case Delete(name) =>
      FinishStaysRecorded(d, None, o);
      var s := if IsCurrent(d.store, name) then Stop(d, None, o).store else d.store;
      DeletingHoldsNoMore(s, name, o);
      HoldingNoMore(s, DeleteEntry(s, name, o).store);
    case DeleteAll =>
      FinishStaysRecorded(d, None, o);
      var s := Stop(d, None, o).store;
      DeletingAllHoldsNoMore(s, o);
      HoldingNoMore(s, DeleteAllEntries(s, o).store);
    case Position(fix) => PositionStaysRecorded(d, fix, o);
    case Capture(c) => ContainerStaysRecorded(cfg, d, c, o);
    case Label(name, displayName, notes) =>
      LabelsHoldNoMore(d.store, name, displayName, notes, o);
      HoldingNoMore(d.store, Annotate(d.store, name, displayName, notes, o).store);
    case Reanalysed(path, report) => SameManifestStaysRecorded(d.store, Reanalyse(d.store, path, report));
    case Pick(_) =>
    case Put(_, _) =>
    case Conclude(deleteAfter) => ConcludingStaysRecorded(d, deleteAfter, o);
  }

  lemma PositionStaysRecorded(d: Daemon, fix: Block, o: Outside)
    requires Recorded(d.store)
    ensures Recorded(GpsUpdate(d, fix, o).store)
  {
    hide Recorded;
    SameManifestStaysRecorded(d.store, GpsUpdate(d, fix, o).store);
  }

  lemma ConcludingStaysRecorded(d: Daemon, deleteAfter: bool, o: Outside)
    requires Recorded(d.store)
    ensures Recorded(FinishUpload(d, deleteAfter, o).store)
  {
    hide Recorded, HoldsNoMore, DeleteEntry, MarkUploaded, Annotate;
    if d.upload.Some? {
      var name := d.upload.value.name;
      LabelsHoldNoMore(d.store, name, None, None, o);
      DeletingHoldsNoMore(d.store, name, o);
      HoldingNoMore(d.store, DeleteEntry(d.store, name, o).store);
      HoldingNoMore(d.store, MarkUploaded(d.store, name, o).store);
    }
  }

  lemma {:induction false} RunStaysRecorded(cfg: Config, d: Daemon, steps: seq<Step>)
    requires Recorded(d.store)
    ensures Recorded(Run(cfg, d, steps).store)
    decreases |steps|
  {
    hide Recorded, Next;
    if steps != [] {
      StepStaysRecorded(cfg, d, steps[0]);
      RunStaysRecorded(cfg, Next(cfg, d, steps[0]), steps[1..]);
    }
  }

  /** Lose the manifest after any run: from any listing that leaves no capture out, recovery rebuilds
      a recording whose capture still exists, with its name, compression and start, exactly if it
      started at a second that is a date since 1970. */
  lemma LosingTheManifestLosesNothing(cfg: Config, d: Daemon, steps: seq<Step>,
                                      listing: seq<DirEntry>, e: ManifestEntry)
    requires Recorded(d.store)
    requires var s := Run(cfg, d, steps).store;
             && e in s.entries && CapturePath(s.dir, e) in s.files
             && Complete(s.files, s.dir, listing)
    ensures (exists r :: r in RecoveredEntries(listing) && SameRecording(r, e)) <==> 0 <= e.startTime <= MAX_TIMESTAMP
  {
    var s := Run(cfg, d, steps).store;
    RunStaysRecorded(cfg, d, steps);
    hide Run, RoundTrips, Complete, RecoveredEntries;
    if Dated(e) {
      RecoveryLosesNothing(s.files, s.dir, listing, e);
    }
    if r :| r in RecoveredEntries(listing) && SameRecording(r, e) {
      RecoveredEntriesAreDated(listing, r);
    }
  }
}
