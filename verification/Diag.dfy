/** The diag task as the program has it: one object that owns the open writer, updated by
    every message and container, over the shared store. */
module Diag {
  import opened Options
  import opened Names
  import opened StoreModel
  import opened CleanupModel
  import opened RecoveryModel
  import opened DaemonModel
  import opened QmdlStore
  import opened Pruning

  class DiagTask {
    const cfg: Config
    var writer: Option<Writer>
    var maxTypeSeen: Severity
    var bytesSinceSpaceCheck: nat
    var lowSpaceWarned: bool
    var stoppedByUser: bool
    var recordingStartedAt: Option<nat>
    var uiUpdates: seq<Display>          // sent to the display
    var analysisMessages: seq<string>    // RecordingFinished sent to the analysis thread

    constructor (cfg: Config)
      ensures this.cfg == cfg && TaskState() == Task(None, 0, 0, false, false, None, [], [])
    {
      this.cfg := cfg;
      writer, maxTypeSeen, bytesSinceSpaceCheck, lowSpaceWarned := None, 0, 0, false;
      stoppedByUser, recordingStartedAt, uiUpdates, analysisMessages := false, None, [], [];
    }

    function TaskState(): Task
      reads this
    {
      Task(writer, maxTypeSeen, bytesSinceSpaceCheck, lowSpaceWarned, stoppedByUser, recordingStartedAt,
           uiUpdates, analysisMessages)
    }

    /** The task and its store, with no upload under way. */
    function View(store: RecordingStore): Daemon
      requires store.Valid()
      reads this, store
    {
      Daemon(store.State(), TaskState(), None)
    }

    method SendDisplay(display: Display)
      modifies `uiUpdates
      ensures uiUpdates == old(uiUpdates) + [display]
    {
      uiUpdates := uiUpdates + [display];
    }

    /** Settle into the stopped state before the writers are closed. */
    method StopCurrentRecording(store: RecordingStore, o: Outside)
      requires store.Valid()
      modifies this, store
      ensures store.Valid() && View(store) == StopWriting(old(View(store)), o)
    {
      hide UpdateCurrentSize;
      var open := writer;
      writer := None;
      if open.Some? {
        store.files := Append(store.files, open.value.capture, o.trailer);
        if o.closedSize.Some? {
          var _ := store.UpdateCurrentEntryQmdlSize(o.closedSize.value, o);
        }
      }
    }

    method FinishCurrentEntry(store: RecordingStore, reason: Option<string>, o: Outside)
      requires store.Valid()
      modifies this, store
      ensures store.Valid() && View(store) == FinishEntry(old(View(store)), reason, o)
    {
      hide StopWriting, SetStopReason, CloseCurrent;
      StopCurrentRecording(store, o);
      recordingStartedAt := None;
      if reason.Some? {
        var _ := store.SetCurrentStopReason(reason.value, o);
      }
      if store.currentEntry.Some? {
        analysisMessages := analysisMessages + [store.entries[store.currentEntry.value].name];
      }
      var _ := store.CloseCurrentEntry(o);
    }

    method Stop(store: RecordingStore, reason: Option<string>, o: Outside)
      requires store.Valid()
      modifies this, store
      ensures store.Valid() && View(store) == DaemonModel.Stop(old(View(store)), reason, o)
    {
      hide FinishEntry;
      FinishCurrentEntry(store, reason, o);
      SendDisplay(ShowPaused);
    }

    /** What goes down beside a new recording before it counts as running. */
    method WriteCompanions(store: RecordingStore, o: Outside) returns (outcome: Outcome)
      requires store.Valid() && store.currentEntry.Some?
      modifies this, store
      ensures store.Valid() && Started(View(store), outcome) == BeginWriting(cfg, old(View(store)), o)
    {
      hide FileName, Append;
      var e := store.entries[store.currentEntry.value];
      var gps, meta := PathOf(store.path, e, Gps), PathOf(store.path, e, Meta);
      if cfg.fixedPosition.Some? {
        if gps in o.blocked {
          return Failed(CreateFileError);
        }
        if gps in o.unwritable {
          return Failed(WriteFileError);
        }
        store.files := AppendOrCreate(store.files, gps, cfg.fixedPosition.value);
      }
      if meta !in o.blocked {
        store.files := store.files[meta := o.sidecar];
      }
      var open := Writer(CapturePath(store.path, e), PathOf(store.path, e, Analysis));
      if open.report in o.unwritable {
        return Failed(WriteFileError);
      }
      store.files := Append(store.files, open.report, o.header);
      writer := Some(open);
      recordingStartedAt := Some(o.tick);
      SendDisplay(ShowRecording);
      outcome := Done;
    }

    method MakeRoom(store: RecordingStore, o: Outside)
      requires store.Valid()
      modifies store
      ensures store.Valid() && View(store) == MakeRoomToStart(cfg, old(View(store)), o)
    {
      hide Prune;
      var check := CheckSpace(cfg, store.State(), o);
      if cfg.autoDelete && (check.Critical? || check.Low?) {
        var _ := PruneCleanRecordings(store, cfg.minStartMb, cfg.uploads, o);
      }
    }

    method StartInner(store: RecordingStore, o: Outside) returns (outcome: Outcome)
      requires store.Valid()
      modifies this, store
      ensures store.Valid() && Started(View(store), outcome) == DaemonModel.StartInner(cfg, old(View(store)), o)
    {
      hide MakeRoomToStart, FinishEntry, NewEntry, BeginWriting;
      maxTypeSeen := 0;
      bytesSinceSpaceCheck := 0;
      lowSpaceWarned := false;
      MakeRoom(store, o);
      var check := CheckSpace(cfg, store.State(), o);
      if check.Critical? {
        return Failed(InsufficientDiskSpace(check.mb, cfg.minContinueMb));
      }
      if check.Low? {
        return Failed(InsufficientDiskSpace(check.mb, cfg.minStartMb));
      }
      if writer.Some? {
        FinishCurrentEntry(store, None, o);
      }
      outcome := store.NewEntry(o);
      if outcome == Done {
        outcome := WriteCompanions(store, o);
      }
    }

    method Start(store: RecordingStore, o: Outside) returns (outcome: Outcome)
      requires store.Valid()
      modifies this, store
      ensures store.Valid() && Started(View(store), outcome) == DaemonModel.Start(cfg, old(View(store)), o)
    {
      hide DaemonModel.StartInner;
      outcome := StartInner(store, o);
      if outcome != Done {
        SendDisplay(ShowPaused);
      }
    }

    /** The severity seen is carried across. */
    method Rotate(store: RecordingStore, o: Outside)
      requires store.Valid()
      modifies this, store
      ensures store.Valid() && View(store) == DaemonModel.Rotate(cfg, old(View(store)), o)
    {
      hide DaemonModel.Start, DaemonModel.Stop, FinishEntry;
      var carried := maxTypeSeen;
      FinishCurrentEntry(store, Some(o.wording), o);
      var outcome := Start(store, o);
      if outcome != Done {
        Stop(store, Some(o.wording), o);
        return;
      }
      maxTypeSeen := carried;
      if carried > 0 {
        SendDisplay(ShowWarning(carried));
      }
    }

    method SwitchStore(store: RecordingStore, dir: string, look: Look, o: Outside) returns (outcome: Outcome)
      requires store.Valid()
      modifies this, store
      ensures store.Valid()
      ensures Started(View(store), outcome) == DaemonModel.SwitchStore(cfg, old(View(store)), dir, look, o)
    {
      hide DaemonModel.Start, FinishEntry, OpenOrRecover;
      var wasRecording := writer.Some?;
      if store.path == dir {
        if wasRecording {
          FinishCurrentEntry(store, Some(o.wording), o);
          outcome := Start(store, o);
        } else if !stoppedByUser {
          outcome := Start(store, o);
        } else {
          outcome := Done;
        }
        return;
      }
      if wasRecording {
        FinishCurrentEntry(store, Some(o.wording), o);
      }
      outcome := store.OpenOrRecover(dir, look, o);
      if outcome != Done {
        if wasRecording {
          var _ := Start(store, o);
        }
        return;
      }
      if wasRecording || !stoppedByUser {
        outcome := Start(store, o);
      }
    }

    method DeleteEntry(store: RecordingStore, name: string, o: Outside) returns (outcome: Outcome)
      requires store.Valid()
      modifies this, store
      ensures store.Valid() && View(store) == DeleteRecording(old(View(store)), name, o)
    {
      hide DaemonModel.Stop, StoreModel.DeleteEntry;
      if IsCurrent(store.State(), name) {
        Stop(store, None, o);
      }
      outcome := store.DeleteEntry(name, o);
    }

    method DeleteAllEntries(store: RecordingStore, o: Outside) returns (outcome: Outcome)
      requires store.Valid()
      modifies this, store
      ensures store.Valid() && View(store) == DeleteAllRecordings(old(View(store)), o)
    {
      hide DaemonModel.Stop, StoreModel.DeleteAllEntries;
      Stop(store, None, o);
      outcome := store.DeleteAllEntries(o);
    }

    method HandleGpsUpdate(store: RecordingStore, position: Block, o: Outside)
      requires store.Valid()
      modifies store
      ensures store.Valid() && View(store) == GpsUpdate(old(View(store)), position, o)
    {
      if store.currentEntry.None? {
        return;
      }
      var gps := PathOf(store.path, store.entries[store.currentEntry.value], Gps);
      if gps in o.blocked || gps in o.unwritable {
        return;
      }
      store.files := AppendOrCreate(store.files, gps, position);
    }

    /** The space check made every so many bytes while recording. */
    method CheckDiskSpace(store: RecordingStore, o: Outside) returns (stopped: bool)
      requires store.Valid()
      modifies this, store
      ensures store.Valid() && Checked(View(store), stopped) == CheckRoom(cfg, old(View(store)), o)
    {
      hide DaemonModel.Stop, Prune;
      stopped := false;
      if bytesSinceSpaceCheck < DISK_CHECK_BYTES_INTERVAL {
        return;
      }
      bytesSinceSpaceCheck := 0;
      match CheckSpace(cfg, store.State(), o)
      case Critical(_) =>
        Stop(store, Some(o.wording), o);
        stopped := true;
      case Low(_) =>
        var freed := 0;
        if cfg.autoDelete {
          freed := PruneCleanRecordings(store, cfg.minStartMb, cfg.uploads, o);
        }
        if freed > 0 {
          lowSpaceWarned := false;
        } else if !lowSpaceWarned {
          lowSpaceWarned := true;
        }
      case _ =>
    }

    method ProcessContainer(store: RecordingStore, c: Container, o: Outside)
      requires store.Valid()
      modifies this, store
      ensures store.Valid() && View(store) == DaemonModel.ProcessContainer(cfg, old(View(store)), c, o)
    {
      hide CheckRoom, DaemonModel.WriteContainer;
      if !c.userSpace || writer.None? {
        return;
      }
      var open := writer.value;
      var stopped := CheckDiskSpace(store, o);
      if !stopped {
        WriteContainer(store, open, c, o);
      }
    }

    method WriteContainer(store: RecordingStore, open: Writer, c: Container, o: Outside)
      requires store.Valid()
      modifies this, store
      ensures store.Valid() && View(store) == DaemonModel.WriteContainer(cfg, old(View(store)), open, c, o)
    {
      hide DaemonModel.Stop, DaemonModel.Rotate, UpdateCurrentSize, Append;
      var rotating := false;
      if !c.written {
        store.files := Append(store.files, open.capture, c.torn);
        Stop(store, Some(o.wording), o);
        return;
      }
      store.files := Append(store.files, open.capture, [c.block]);
      if c.fileSize.Some? {
        var outcome := store.UpdateCurrentEntryQmdlSize(c.fileSize.value, o);
        if outcome != Done {
          Stop(store, Some(o.wording), o);
          return;
        }
        if cfg.maxBytes.Some? && c.fileSize.value >= cfg.maxBytes.value {
          rotating := true;
        }
      }
      if !rotating && cfg.maxDuration.Some? && recordingStartedAt.Some?
         && o.tick - recordingStartedAt.value >= cfg.maxDuration.value {
        rotating := true;
      }
      Analyse(store, open, c);
      if rotating {
        Rotate(store, o);
      }
    }

    method Analyse(store: RecordingStore, open: Writer, c: Container)
      requires store.Valid()
      modifies this, store
      ensures store.Valid() && View(store) == Analysed(old(View(store)), open, c)
    {
      hide Append;
      store.files := Append(store.files, open.report, c.report);
      bytesSinceSpaceCheck := bytesSinceSpaceCheck + c.size;
      var maxType: Severity := if c.severity.Some? then c.severity.value else 0;
      if maxType > maxTypeSeen {
        maxTypeSeen := maxType;
        SendDisplay(ShowWarning(maxType));
      }
    }

    /** One turn of the message loop. */
    method Handle(store: RecordingStore, step: Step)
      requires store.Valid() && HandledByTask(step.event)
      modifies this, store
      ensures store.Valid() && View(store) == Next(cfg, old(View(store)), step)
    {
      hide DaemonModel.Start, DaemonModel.Stop, DaemonModel.SwitchStore, DeleteRecording, DeleteAllRecordings;
      hide GpsUpdate, DaemonModel.ProcessContainer;
      var o := step.o;
      match step.event
      case StartRecording =>
        stoppedByUser := false;
        var _ := Start(store, o);
      case StopRecording =>
        stoppedByUser := true;
        Stop(store, None, o);
      case Switch(dir, look) => var _ := SwitchStore(store, dir, look, o);
      case Delete(name) => var _ := DeleteEntry(store, name, o);
      case DeleteAll => var _ := DeleteAllEntries(store, o);
      case Position(fix) => HandleGpsUpdate(store, fix, o);
      case Capture(c) => ProcessContainer(store, c, o);
    }
  }

  /** The messages and containers the task's loop selects over. */
  predicate HandledByTask(event: Event) {
    event.StartRecording? || event.StopRecording? || event.Switch? || event.Delete? || event.DeleteAll?
    || event.Position? || event.Capture?
  }
}
