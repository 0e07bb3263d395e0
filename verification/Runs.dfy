/** The guarantees over every run: any messages, containers, prunings and uploads, in any
    order, whatever the file system and the clock do. */
module Runs {
  import opened Options
  import opened Names
  import opened StoreModel
  import opened StoreLemmas
  import opened CleanupModel
  import opened Cleanup
  import opened RecoveryModel
  import opened DaemonModel
  import opened Lifecycle
  import opened Starting
  import opened Safety

  /** Captures of the recordings with a given name. */
  ghost function NamedCaptures(s: Store, name: string): iset<Path> {
    iset p | HasNamed(s, name, p)
  }

  ghost predicate HasNamed(s: Store, name: string, p: Path) {
    exists e :: e in s.entries && e.name == name && CapturePath(s.dir, e) == p
  }

  /** The captures that a step has a reason to remove: asked for by name or all together,
      pruned as clean, or uploaded in full. */
  ghost function MayRemove(cfg: Config, d: Daemon, step: Step): iset<Path> {
    match step.event
    case StartRecording => Prunable(cfg, d, step.o)
    case Capture(_) => Prunable(cfg, d, step.o)
    case Switch(dir, look) => SwitchPrunable(cfg, d, dir, look, step.o)
    case Delete(name) => NamedCaptures(d.store, name)
    case DeleteAll => iset p | Lists(d.store.entries, d.store.dir, p)
    case Conclude(deleteAfter) =>
      if deleteAfter && d.upload.Some? && AllSent(d.upload.value) then NamedCaptures(d.store, d.upload.value.name)
      else iset{}
    case _ => iset{}
  }

  lemma SameCapturesIsProgress(d: Daemon, s': Store, o: Outside)
    requires Attached(d) && Harmless(d.store, s') && SameLive(d.store, s')
    requires s'.nextSequence == d.store.nextSequence && d.store.files.Keys <= s'.files.Keys
    ensures Progress(d, d.(store := s'), o, iset{})
  {
    HarmlessKeepsListed(d.store, s');
    hide IsCapture, FileName, Lists, SavedLists, Harmless;
    HarmlessCaptures(d.store, s');
    if d.task.writer.Some? {
      var p := d.task.writer.value.capture;
      assert p in Captures(s'.files) <==> p in s'.files;
      assert p in Captures(d.store.files) <==> p in d.store.files;
    }
  }

  lemma HarmlessCaptures(s: Store, s': Store)
    requires Harmless(s, s')
    ensures forall p :: p in Captures(s.files) <==> p in Captures(s'.files)
    ensures forall p :: p in Captures(s.files) ==> s'.files[p] == s.files[p]
  {
    hide IsCapture, CapturePath;
    forall p | p in Captures(s.files) ensures p in Captures(s'.files) && s'.files[p] == s.files[p] {
      assert Captures(s.files)[p] == Captures(s'.files)[p];
    }
  }

  lemma OthersSurviveDeletion(s: Store, name: string, o: Outside)
    ensures forall p :: p in Captures(s.files) && p !in NamedCaptures(s, name) ==>
              p in DeleteEntry(s, name, o).store.files
  {
    var s' := DeleteEntry(s, name, o).store;
    DeleteEntryEffect(s, name, o);
    hide DeleteEntry, IsCapture, FileName, CapturePath;
    if i :| FindEntry(s.entries, name) == Some(i) {
      assert s.entries[i] in s.entries;
      var q := CapturePath(s.dir, s.entries[i]);
      assert HasNamed(s, name, q);
      assert q in NamedCaptures(s, name);
      forall p | p in Captures(s.files) && p != q ensures p in s'.files {
        assert p in Captures(s'.files);
      }
    }
  }

  /** Deleting a recording that is not current. */
  lemma RemovalIsProgress(d: Daemon, name: string, o: Outside)
    requires Attached(d) && !IsCurrent(d.store, name)
    ensures Progress(d, d.(store := DeleteEntry(d.store, name, o).store), o, NamedCaptures(d.store, name))
  {
    RemovalAdvances(d, name, o);
    CurrentAfterDeletion(d.store, name, o);
    DeletionUnlinksExactly(d, name, o);
    if WriterLinked(d) {
      OthersAreNotTaken(d, name, o);
    }
    hide DeleteEntry, Advance, WriterLinked, Takes;
  }

  lemma OthersAreNotTaken(d: Daemon, name: string, o: Outside)
    requires WriterLinked(d) && !IsCurrent(d.store, name)
    ensures !Takes(d, name, o)
  {
    if Takes(d, name, o) {
      var current, e := d.store.entries[d.store.current.value], d.store.entries[FindEntry(d.store.entries, name).value];
      CaptureNameInjective(e.name, e.compressed, current.name, current.compressed);
      assert false;
    }
  }

  /** Deleting takes exactly the capture of the entry found, unless it is stuck, and unless that is
      the current entry or its capture is left, the current one stays. */
  lemma DeletesExactly(s: Store, i: nat, o: Outside)
    requires i < |s.entries| && FindEntry(s.entries, s.entries[i].name) == Some(i)
    ensures var s', q := DeleteEntry(s, s.entries[i].name, o).store, CapturePath(s.dir, s.entries[i]);
            && (forall p :: p in Captures(s.files) ==> (p in s'.files <==> p != q || p in o.stuck))
            && (s.current != Some(i) || q in s'.files ==> SameLive(s, s'))
  {
    var e, s' := s.entries[i], DeleteEntry(s, s.entries[i].name, o).store;
    var removal := RemoveFiles(s.files, EntryPaths(s.dir, e), o.stuck);
    CaptureFiles(Qmdl, e.name, e.compressed);
    if CapturePath(s.dir, e) in s.files {
      CaptureGoesFirst(s.files, s.dir, e, o.stuck);
    }
    RemovingAnEntry(s.files, s.dir, e, o.stuck);
    DeletedFiles(s, i, o);
    hide *;
    SameCaptureKeys(s.files, removal.files, s'.files, CapturePath(s.dir, e));
  }

  lemma SameCaptureKeys(files: Files, left: Files, files': Files, q: Path)
    requires Captures(files') == Captures(left) && IsCapture(q.file)
    requires Captures(left) == Captures(files) || Captures(left) == Captures(files) - {q}
    ensures forall p :: p in Captures(files) && p != q ==> p in files'
    ensures q in files' <==> q in left
  {
    hide IsCapture;
    assert forall p :: p in Captures(files') <==> p in files' && IsCapture(p.file);
    assert forall p :: p in Captures(left) <==> p in left && IsCapture(p.file);
  }

  lemma DeletedFiles(s: Store, i: nat, o: Outside)
    requires i < |s.entries| && FindEntry(s.entries, s.entries[i].name) == Some(i)
    ensures var s' := DeleteEntry(s, s.entries[i].name, o).store;
            var removal := RemoveFiles(s.files, EntryPaths(s.dir, s.entries[i]), o.stuck);
            && Captures(s'.files) == Captures(removal.files)
            && (s.current != Some(i) || !removal.complete ==> SameLive(s, s'))
  {
    var removal := RemoveFiles(s.files, EntryPaths(s.dir, s.entries[i]), o.stuck);
    hide FileName, IsCapture, EntryPaths, RemoveFiles, DropEntry, Captures;
    DropEntryEffect(s.(files := removal.files), i, o);
  }

  /** Of an entry's files the capture is removed first, so only its own being stuck saves it. */
  lemma CaptureGoesFirst(files: Files, dir: string, e: ManifestEntry, stuck: set<Path>)
    requires CapturePath(dir, e) in files
    ensures CapturePath(dir, e) in RemoveFiles(files, EntryPaths(dir, e), stuck).files <==> CapturePath(dir, e) in stuck
  {
    hide FileName;
    var q, paths := CapturePath(dir, e), EntryPaths(dir, e);
    assert paths[0] == q;
    if q !in stuck {
      assert RemoveFiles(files, paths, stuck) == RemoveFiles(files - {q}, paths[1..], stuck);
    }
  }

  /** Deleting that recording takes the file the writer holds. */
  predicate Takes(d: Daemon, name: string, o: Outside) {
    && d.task.writer.Some?
    && match FindEntry(d.store.entries, name)
       case None => false
       case Some(i) =>
         CapturePath(d.store.dir, d.store.entries[i]) == d.task.writer.value.capture
         && d.task.writer.value.capture !in o.stuck
  }

  /** A deletion, of whatever recording, keeps the writer linked exactly if it does not take the file
      the writer holds. */
  lemma DeletionUnlinksExactly(d: Daemon, name: string, o: Outside)
    requires Attached(d)
    ensures var d' := d.(store := DeleteEntry(d.store, name, o).store);
            && Attached(d')
            && (WriterLinked(d) ==> (WriterLinked(d') <==> !Takes(d, name, o)))
  {
    DeleteEntryEffect(d.store, name, o);
    if i :| FindEntry(d.store.entries, name) == Some(i) {
      DeletesExactly(d.store, i, o);
      DeletedCapturesAreOld(d.store, name, o);
      hide DeleteEntry, FileName, IsCapture, IsReport, CapturePath, PathOf, Without;
      var s' := DeleteEntry(d.store, name, o).store;
      if d.task.writer.Some? {
        var p := d.task.writer.value.capture;
        assert p in Captures(s'.files) <==> p in s'.files;
        assert p in Captures(d.store.files) <==> p in d.store.files;
      }
    }
  }

  lemma DeletedCapturesAreOld(s: Store, name: string, o: Outside)
    ensures forall p :: p in Captures(DeleteEntry(s, name, o).store.files) ==> p in Captures(s.files)
    ensures forall p :: p in Captures(DeleteEntry(s, name, o).store.files) ==>
              DeleteEntry(s, name, o).store.files[p] == s.files[p]
  {
    hide IsCapture, DeleteEntry, CapturePath;
    DeleteEntryEffect(s, name, o);
    var s' := DeleteEntry(s, name, o).store;
    assert forall p :: p in Captures(s'.files) ==> Captures(s'.files)[p] == s'.files[p];
    assert forall p :: p in Captures(s.files) ==> Captures(s.files)[p] == s.files[p];
  }

  lemma CurrentAfterDeletion(s: Store, name: string, o: Outside)
    ensures var s' := DeleteEntry(s, name, o).store;
            s'.nextSequence == s.nextSequence && s'.dir == s.dir && CurrentFrom(s, s')
  {
    DeleteEntryEffect(s, name, o);
    if i :| FindEntry(s.entries, name) == Some(i) {
      DeletesExactly(s, i, o);
      if s.current == Some(i) {
        DroppedCurrent(s, name, i, o);
      }
      hide DeleteEntry, CapturePath;
    }
  }

  lemma DroppedCurrent(s: Store, name: string, i: nat, o: Outside)
    requires FindEntry(s.entries, name) == Some(i) && s.current == Some(i)
    ensures var s' := DeleteEntry(s, name, o).store;
            (s'.current == s.current && s'.entries == s.entries) || s'.current.None?
  {
    hide EntryPaths, FileName;
  }

  /** Deleting by name, whatever is current. */
  lemma RemovalAdvances(d: Daemon, name: string, o: Outside)
    requires Attached(d)
    ensures Advance(d, d.(store := DeleteEntry(d.store, name, o).store), o, NamedCaptures(d.store, name))
  {
    DeletionUnlinksExactly(d, name, o);
    DeleteEntryKeepsListed(d.store, name, o);
    OthersSurviveDeletion(d.store, name, o);
    DeletedCapturesAreOld(d.store, name, o);
    CurrentAfterDeletion(d.store, name, o);
    hide DeleteEntry, IsCapture, Lists, SavedLists, Attached, NamedCaptures, CapturePath, Without, WriterLinked;
  }

  /** Renamed nothing, so the same captures carry the name. */
  lemma NamedCapturesFrom(s: Store, s': Store, name: string)
    requires EntriesFrom(s.entries, s'.entries) && s'.dir == s.dir
    ensures NamedCaptures(s', name) <= NamedCaptures(s, name)
  {
    forall p | p in NamedCaptures(s', name) ensures p in NamedCaptures(s, name) {
      var e' :| e' in s'.entries && e'.name == name && CapturePath(s'.dir, e') == p;
      var e :| e in s.entries && SameLabels(e, e');
      assert CapturePath(s.dir, e) == p;
      assert HasNamed(s, name, p);
    }
  }

  lemma ProgressAfterQuiet(cfg: Config, d: Daemon, d1: Daemon, d2: Daemon, o: Outside, gone: iset<Path>)
    requires Quiet(Unpruned(cfg), d, d1, o) && Progress(d1, d2, o, gone)
    ensures Progress(d, d2, o, gone)
  {
    NothingPrunable(cfg, d, o);
    QuietIsProgress(Unpruned(cfg), d, d1, o, iset{});
    SameDir(d.store, d1.store);
    SameTries(d.store, d1.store, o);
    NothingNew(Unpruned(cfg), d, d1, o);
    PreservedGrows(d, d1, iset{}, gone);
    hide Quiet, Prunable, TriedCapture, Tried, IsCapture, Lists, SavedLists, Attached, KeepsListed;
    PreservedComposes(d, d1, d2, gone, gone);
    StaysListedComposes(d, d1, d2, gone, gone);
    QuietWriter(Unpruned(cfg), d, d1, o);
    hide Preserved, StaysListed;
  }

  lemma PreservedGrows(d: Daemon, d': Daemon, gone: iset<Path>, gone': iset<Path>)
    requires Preserved(d, d', gone) && gone <= gone'
    ensures Preserved(d, d', gone')
  {
  }

  lemma QuietWriter(cfg: Config, d: Daemon, d': Daemon, o: Outside)
    requires Quiet(cfg, d, d', o)
    ensures d'.upload == d.upload && d'.task.stoppedByUser == d.task.stoppedByUser
    ensures d'.store.nextSequence == d.store.nextSequence
    ensures d'.task.writer == d.task.writer || d'.task.writer.None?
    ensures CurrentFrom(d.store, d'.store) && EntriesFrom(d.store.entries, d'.store.entries)
  {
  }

  lemma DeletionIsProgress(cfg: Config, d: Daemon, name: string, o: Outside)
    requires Attached(d)
    ensures Progress(d, DeleteRecording(d, name, o), o, NamedCaptures(d.store, name))
  {
    hide Quiet, Progress, Attached, Stop, DeleteEntry, NamedCaptures;
    var d1 := if IsCurrent(d.store, name) then Stop(d, None, o) else d;
    QuietTask(Unpruned(cfg), d, d.task, o);
    StopIsQuiet(Unpruned(cfg), d, None, o);
    LinkedAfter(Unpruned(cfg), d, d1, o);
    RemovalIsProgress(d1, name, o);
    QuietWriter(Unpruned(cfg), d, d1, o);
    NothingNew(Unpruned(cfg), d, d1, o);
    NamedCapturesFrom(d.store, d1.store, name);
    MoreMayGo(d1, DeleteRecording(d, name, o), o, NamedCaptures(d1.store, name), NamedCaptures(d.store, name));
    ProgressAfterQuiet(cfg, d, d1, DeleteRecording(d, name, o), o, NamedCaptures(d.store, name));
  }

  lemma DeletingAllIsProgress(cfg: Config, d: Daemon, o: Outside)
    requires Attached(d)
    ensures Progress(d, DeleteAllRecordings(d, o), o, iset p | Lists(d.store.entries, d.store.dir, p))
  {
    var gone := iset p | Lists(d.store.entries, d.store.dir, p);
    var d1, d' := Stop(d, None, o), DeleteAllRecordings(d, o);
    hide Quiet, Attached, Stop, DeleteAllEntries, Captures, Lists, SavedLists, KeepsListed;
    StopIsQuiet(Unpruned(cfg), d, None, o);
    LinkedAfter(Unpruned(cfg), d, d1, o);
    QuietWriter(Unpruned(cfg), d, d1, o);
    NothingNew(Unpruned(cfg), d, d1, o);
    SameDir(d.store, d1.store);
    forall p | Lists(d1.store.entries, d1.store.dir, p) ensures p in gone {
      ListsFrom(d.store, d1.store, p);
    }
    SweptIsProgress(d1, o, gone);
    hide Progress;
    ProgressAfterQuiet(cfg, d, d1, d', o, gone);
  }

  lemma ListsFrom(s: Store, s': Store, p: Path)
    requires EntriesFrom(s.entries, s'.entries) && s'.dir == s.dir && Lists(s'.entries, s'.dir, p)
    ensures Lists(s.entries, s.dir, p)
  {
    var i :| 0 <= i < |s'.entries| && CapturePath(s'.dir, s'.entries[i]) == p;
    var e' := s'.entries[i];
    assert e' in s'.entries;
    var e :| e in s.entries && SameLabels(e, e');
    var j :| 0 <= j < |s.entries| && s.entries[j] == e;
    assert CapturePath(s.dir, s.entries[j]) == p;
  }

  lemma SweptIsProgress(d: Daemon, o: Outside, gone: iset<Path>)
    requires d.task.writer.None?
    requires forall p :: Lists(d.store.entries, d.store.dir, p) ==> p in gone
    ensures Progress(d, d.(store := DeleteAllEntries(d.store, o).store), o, gone)
  {
    DeleteAllEffect(d.store, o);
    hide DeleteAllEntries, IsCapture, Lists, SavedLists;
  }

  // One step.

  /** Advance looks at the store and the writer only. */
  lemma AdvanceFrom(d: Daemon, d1: Daemon, d2: Daemon, d3: Daemon, o: Outside, gone: iset<Path>)
    requires d1.store == d.store && d1.task.writer == d.task.writer
    requires d3.store == d2.store && d3.task.writer == d2.task.writer
    requires Advance(d1, d2, o, gone)
    ensures Advance(d, d3, o, gone)
  {
    hide IsCapture, Lists, SavedLists, Tried, TriedCapture, Linked;
  }

  lemma IdleAdvances(d: Daemon, o: Outside)
    requires Attached(d)
    ensures Progress(d, d, o, iset{})
  {
    hide IsCapture, Lists, SavedLists, Linked;
  }

  lemma CompanionIsProgress(d: Daemon, p: Path, data: FileData, o: Outside)
    requires Attached(d) && !IsCapture(p.file)
    ensures Progress(d, d.(store := d.store.(files := d.store.files[p := data])), o, iset{})
  {
    hide IsCapture, FileName;
    CapturesUnchanged(d.store.files, p, data);
    hide Progress, Attached, Captures;
    SameCapturesIsProgress(d, d.store.(files := d.store.files[p := data]), o);
  }

  lemma PositionIsProgress(d: Daemon, fix: Block, o: Outside)
    requires Attached(d)
    ensures Progress(d, GpsUpdate(d, fix, o), o, iset{})
  {
    hide Progress, Attached;
    IdleAdvances(d, o);
    if d.store.current.Some? {
      var e := d.store.entries[d.store.current.value];
      CaptureFiles(Gps, e.name, e.compressed);
      hide FileName, IsCapture;
      var gps := PathOf(d.store.dir, e, Gps);
      CompanionIsProgress(d, gps, (if gps in d.store.files then d.store.files[gps] else []) + [fix], o);
    }
  }

  lemma ReanalysisIsProgress(d: Daemon, p: Path, report: FileData, o: Outside)
    requires Attached(d)
    ensures Progress(d, d.(store := Reanalyse(d.store, p, report)), o, iset{})
  {
    hide Progress, Attached, IsCapture;
    IdleAdvances(d, o);
    if IsReport(p.file) {
      ReportsAreNoCaptures(p.file);
      CompanionIsProgress(d, p, report, o);
    }
  }

  lemma LabelsKeepFiles(s: Store, name: string, displayName: Option<string>, notes: Option<string>, o: Outside)
    ensures var t := Annotate(s, name, displayName, notes, o).store;
            t.files == s.files && t.nextSequence == s.nextSequence
    ensures var t := MarkUploaded(s, name, o).store; t.files == s.files && t.nextSequence == s.nextSequence
  {
  }

  lemma LabelIsProgress(d: Daemon, name: string, displayName: Option<string>, notes: Option<string>, o: Outside)
    requires Attached(d)
    ensures Progress(d, d.(store := Annotate(d.store, name, displayName, notes, o).store), o, iset{})
    ensures Progress(d, d.(store := MarkUploaded(d.store, name, o).store), o, iset{})
  {
    LabelsAreHarmless(d.store, name, displayName, notes, o);
    var t1, t2 := Annotate(d.store, name, displayName, notes, o).store, MarkUploaded(d.store, name, o).store;
    LabelsKeepFiles(d.store, name, displayName, notes, o);
    hide Annotate, MarkUploaded, Progress, Attached, Harmless, SameLive;
    SameCapturesIsProgress(d, t1, o);
    SameCapturesIsProgress(d, t2, o);
  }

  /** What any step does, with no assumption on what the upload worker knows. */
  lemma StepAdvances(cfg: Config, d: Daemon, step: Step)
    requires Attached(d)
    ensures Advance(d, Next(cfg, d, step), step.o, MayRemove(cfg, d, step))
    ensures !step.event.Conclude? ==> KeepsLink(d, Next(cfg, d, step))
  {
    hide Advance, Attached, WriterLinked, Start, Stop, SwitchStore;
    hide DeleteRecording, DeleteAllRecordings, ProcessContainer;
    hide GpsUpdate, Annotate, Reanalyse, TryUpload, DeleteEntry, MarkUploaded, Prunable, NamedCaptures, MayPrune;
    var o, gone, d' := step.o, MayRemove(cfg, d, step), Next(cfg, d, step);
    IdleAdvances(d, o);
    AdvanceFrom(d, d, d, d.(upload := d'.upload), o, iset{});
    match step.event
    case StartRecording =>
      var d1 := d.(task := d.task.(stoppedByUser := false));
      SameAttached(d, d1);
      StartIsProgress(cfg, d1, o);
      SamePrunable(cfg, d, d1, o);
      AdvanceFrom(d, d1, d', d', o, gone);
    case StopRecording =>
      var d1 := d.(task := d.task.(stoppedByUser := true));
      SameAttached(d, d1);
      StopIsQuiet(Unpruned(cfg), d1, None, o);
      NothingPrunable(cfg, d1, o);
      QuietIsProgress(Unpruned(cfg), d1, d', o, iset{});
      AdvanceFrom(d, d1, d', d', o, gone);
    case Switch(dir, look) => SwitchIsAdvance(cfg, d, dir, look, o);
    case Delete(name) => DeletionIsProgress(cfg, d, name, o);
    case DeleteAll => DeletingAllIsProgress(cfg, d, o);
    case Position(fix) => PositionIsProgress(d, fix, o);
    case Capture(c) => ProcessContainerIsProgress(cfg, d, c, o);
    case Label(name, displayName, notes) => LabelIsProgress(d, name, displayName, notes, o);
    case Reanalysed(path, report) => ReanalysisIsProgress(d, path, report, o);
    case Pick(minAge) => SameAttached(d, d');
    case Put(kind, accepted) => SameAttached(d, d');
    case Conclude(deleteAfter) =>
      if d.upload.Some? && AllSent(d.upload.value) {
        var name := d.upload.value.name;
        LabelIsProgress(d, name, None, None, o);
        RemovalAdvances(d, name, o);
        var d1 := d.(store := d'.store);
        assert AllTried(d.upload.value);
        AdvanceFrom(d, d, d1, d', o, gone);
      }
  }

  lemma SameAttached(d: Daemon, d1: Daemon)
    requires Attached(d) && d1.store == d.store && d1.task.writer == d.task.writer
    ensures Attached(d1) && (WriterLinked(d1) <==> WriterLinked(d))
  {
  }

  lemma SamePrunable(cfg: Config, d: Daemon, d1: Daemon, o: Outside)
    requires d1.store == d.store && d1.task.writer == d.task.writer
    ensures Prunable(cfg, d1, o) == Prunable(cfg, d, o)
  {
    hide FileName, CertifiesClean, Unlabelled, CapturePath, PathOf;
    assert forall report :: ReadsClean(d1, report, o) <==> ReadsClean(d, report, o);
  }

  /** A user's stop holds through storage switches, rotations and everything but a start. */
  lemma StopHolds(cfg: Config, d: Daemon, step: Step)
    requires Attached(d) && (d.task.stoppedByUser ==> !IsRecording(d))
    ensures var d' := Next(cfg, d, step);
            && (d'.task.stoppedByUser ==> !IsRecording(d'))
            && (d.task.stoppedByUser && !step.event.StartRecording? ==> d'.task.stoppedByUser)
            && (step.event.Pick? || step.event.Put? || step.event.Conclude? || d'.upload == d.upload)
  {
    hide Attached, Start, Stop, FinishEntry, DeleteEntry, DeleteAllEntries, OpenOrRecover, CheckRoom, WriteContainer;
    var o := step.o;
    var d0, d1 := d.(task := d.task.(stoppedByUser := false)), d.(task := d.task.(stoppedByUser := true));
    SameAttached(d, d0);
    SameAttached(d, d1);
    match step.event
    case StartRecording =>
      hide Advance;
      StartIsProgress(cfg, d0, o);
    case StopRecording =>
      StopIsQuiet(cfg, d1, None, o);
      hide Quiet;
      QuietWriter(cfg, d1, Stop(d1, None, o), o);
    case Switch(dir, look) =>
      hide Advance;
      SwitchIsAdvance(cfg, d, dir, look, o);
    case Capture(c) =>
      hide Advance;
      ProcessContainerIsProgress(cfg, d, c, o);
    case _ =>
      hide Quiet;
      StopIsQuiet(cfg, d, None, o);
      QuietWriter(cfg, d, Stop(d, None, o), o);
  }

  /** The upload worker's deletion takes the file the writer holds. */
  predicate Unlinks(d: Daemon, step: Step) {
    && step.event.Conclude? && step.event.deleteAfter
    && d.upload.Some? && AllSent(d.upload.value)
    && Takes(d, d.upload.value.name, step.o)
  }

  /** Every step keeps the open writer on the current entry's file, except exactly one kind: the
      deletion after an upload, when the recording it finds is the one being made. */
  lemma StepKeepsLinkExactly(cfg: Config, d: Daemon, step: Step)
    requires WriterLinked(d)
    ensures WriterLinked(Next(cfg, d, step)) <==> !Unlinks(d, step)
  {
    LinkedIsAttached(d);
    if step.event.Conclude? {
      ConcludingUnlinksExactly(cfg, d, step);
    } else {
      hide Next, Advance, WriterLinked;
      StepAdvances(cfg, d, step);
    }
  }

  lemma ConcludingUnlinksExactly(cfg: Config, d: Daemon, step: Step)
    requires WriterLinked(d) && step.event.Conclude?
    ensures WriterLinked(Next(cfg, d, step)) <==> !Unlinks(d, step)
  {
    hide Linked, Attached, DeleteEntry, MarkUploaded, Takes;
    LinkedIsAttached(d);
    if d.upload.Some? && AllSent(d.upload.value) {
      assert AllTried(d.upload.value);
      DeletionUnlinksExactly(d, d.upload.value.name, step.o);
      MarkingKeepsLink(d, d.upload.value.name, step.o);
    }
  }

  lemma MarkingKeepsLink(d: Daemon, name: string, o: Outside)
    requires WriterLinked(d)
    ensures WriterLinked(d.(store := MarkUploaded(d.store, name, o).store))
  {
    hide Advance;
    LinkedIsAttached(d);
    LabelIsProgress(d, name, None, None, o);
  }

  // Every run.

  /** Some step of the run has a reason to remove `p`. */
  ghost predicate EverRemovable(cfg: Config, d: Daemon, steps: seq<Step>, p: Path)
    decreases |steps|
  {
    steps != [] && (p in MayRemove(cfg, d, steps[0]) || EverRemovable(cfg, Next(cfg, d, steps[0]), steps[1..], p))
  }

  lemma {:induction false} RunOneMore(cfg: Config, d: Daemon, steps: seq<Step>)
    requires steps != []
    ensures var n := |steps| - 1; Run(cfg, d, steps) == Next(cfg, Run(cfg, d, steps[..n]), steps[n])
    decreases |steps|
  {
    hide Next;
    var n := |steps| - 1;
    if n == 0 {
      assert Run(cfg, Next(cfg, d, steps[0]), steps[1..]) == Next(cfg, d, steps[0]);
    } else {
      assert steps[..n][1..] == steps[1..][..n - 1];
      RunOneMore(cfg, Next(cfg, d, steps[0]), steps[1..]);
    }
  }

  /** The daemon after the first `k` steps. */
  function Then(cfg: Config, d: Daemon, steps: seq<Step>, k: nat): Daemon
    requires k <= |steps|
  {
    Run(cfg, d, steps[..k])
  }

  lemma ThenOneMore(cfg: Config, d: Daemon, steps: seq<Step>, k: nat)
    requires k < |steps|
    ensures Then(cfg, d, steps, k + 1) == Next(cfg, Then(cfg, d, steps, k), steps[k])
  {
    hide Next, Run;
    RunOneMore(cfg, d, steps[..k + 1]);
    assert steps[..k + 1][..k] == steps[..k];
  }

  /** While recording, the current entry is exactly the one whose file the writer holds, throughout
      a run, if and only if no step of it is the upload worker deleting that very file. */
  lemma RecordingStaysLinked(cfg: Config, d: Daemon, steps: seq<Step>)
    requires WriterLinked(d)
    ensures (forall k | 0 <= k <= |steps| :: WriterLinked(Then(cfg, d, steps, k)))
            <==> (forall k | 0 <= k < |steps| :: !Unlinks(Then(cfg, d, steps, k), steps[k]))
  {
    hide Then, Unlinks, WriterLinked, Next;
    assert Then(cfg, d, steps, 0) == d by { NoStepsYet(cfg, d, steps); }
    if forall k | 0 <= k < |steps| :: !Unlinks(Then(cfg, d, steps, k), steps[k]) {
      var k := 0;
      while k < |steps|
        invariant k <= |steps|
        invariant forall j | 0 <= j <= k :: WriterLinked(Then(cfg, d, steps, j))
      {
        ThenOneMore(cfg, d, steps, k);
        StepKeepsLinkExactly(cfg, Then(cfg, d, steps, k), steps[k]);
        k := k + 1;
      }
    }
    if forall k | 0 <= k <= |steps| :: WriterLinked(Then(cfg, d, steps, k)) {
      forall k | 0 <= k < |steps| ensures !Unlinks(Then(cfg, d, steps, k), steps[k]) {
        ThenOneMore(cfg, d, steps, k);
        StepKeepsLinkExactly(cfg, Then(cfg, d, steps, k), steps[k]);
      }
    }
  }

  lemma NoStepsYet(cfg: Config, d: Daemon, steps: seq<Step>)
    ensures Then(cfg, d, steps, 0) == d
  {
  }

  /** In every run, whatever the upload worker deletes: a writer whose file is there is linked to the
      current entry, and a recording the user stopped is not going. */
  lemma {:induction false} RunStaysAttached(cfg: Config, d: Daemon, steps: seq<Step>)
    requires Attached(d) && (d.task.stoppedByUser ==> !IsRecording(d))
    ensures var d' := Run(cfg, d, steps); Attached(d') && (d'.task.stoppedByUser ==> !IsRecording(d'))
    decreases |steps|
  {
    hide Next, Attached;
    if steps != [] {
      StepAdvances(cfg, d, steps[0]);
      AttachedAfter(d, Next(cfg, d, steps[0]), steps[0].o, MayRemove(cfg, d, steps[0]));
      StopHolds(cfg, d, steps[0]);
      RunStaysAttached(cfg, Next(cfg, d, steps[0]), steps[1..]);
    }
  }

  lemma AttachedAfter(d: Daemon, d': Daemon, o: Outside, gone: iset<Path>)
    requires Advance(d, d', o, gone)
    ensures Attached(d') && Preserved(d, d', gone)
  {
  }

  /** In every run a capture that is not being written keeps its bytes, and does not come to be
      written, until a step that has a reason to remove it. */
  lemma {:induction false} ClosedCapturesAreSafe(cfg: Config, d: Daemon, steps: seq<Step>, p: Path)
    requires Attached(d)
    requires p in Captures(d.store.files) && !IsLive(d, p)
    requires !EverRemovable(cfg, d, steps, p)
    ensures var d' := Run(cfg, d, steps);
            p in d'.store.files && d'.store.files[p] == d.store.files[p] && !IsLive(d', p)
    decreases |steps|
  {
    hide Next, Attached, IsCapture, MayRemove, Advance;
    if steps != [] {
      var d1 := Next(cfg, d, steps[0]);
      StepAdvances(cfg, d, steps[0]);
      AttachedAfter(d, d1, steps[0].o, MayRemove(cfg, d, steps[0]));
      ClosedCapturesAreSafe(cfg, d1, steps[1..], p);
    }
  }

  /** Deletions, complete or failed half way: a capture still on disk that was listed, in
      memory or in the saved manifest too, is listed there still. */
  lemma FailedDeletesStayListed(cfg: Config, d: Daemon, name: string, o: Outside)
    requires Attached(d)
    ensures KeepsListed(d.store, DeleteRecording(d, name, o).store)
    ensures KeepsListed(d.store, DeleteAllRecordings(d, o).store)
    ensures KeepsListed(d.store, FinishUpload(d, true, o).store)
  {
    hide Attached, Stop, DeleteEntry, DeleteAllEntries, Lists, SavedLists, IsCapture;
    var d1 := Stop(d, None, o);
    StopIsQuiet(Unpruned(cfg), d, None, o);
    NothingNew(Unpruned(cfg), d, d1, o);
    DeleteEntryKeepsListed(d.store, name, o);
    DeleteEntryKeepsListed(d1.store, name, o);
    DeleteAllEffect(d1.store, o);
    DeletedCapturesAreOld(d1.store, name, o);
    hide Quiet;
    ListingComposes(d.store, d1.store, DeleteEntry(d1.store, name, o).store);
    ListingComposes(d.store, d1.store, DeleteAllEntries(d1.store, o).store);
    if d.upload.Some? {
      DeleteEntryKeepsListed(d.store, d.upload.value.name, o);
    }
  }
}
