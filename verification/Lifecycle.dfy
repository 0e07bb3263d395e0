/** How one step of the daemon carries the recording in progress, the captures on disk
    and the manifests' listings forward. */
module Lifecycle {
  import opened Options
  import opened Names
  import opened StoreModel
  import opened StoreLemmas
  import opened CleanupModel
  import opened Cleanup
  import opened RecoveryModel
  import opened DaemonModel

  /** The open writer holds exactly the current entry's capture, and that file exists. */
  ghost predicate Linked(s: Store, w: Writer) {
    && s.current.Some?
    && var e := s.entries[s.current.value];
       && e.compressed
       && w.capture == CapturePath(s.dir, e) && w.report == PathOf(s.dir, e, Analysis)
       && w.capture in s.files
  }

  ghost predicate WriterLinked(d: Daemon) {
    d.task.writer.Some? ==> Linked(d.store, d.task.writer.value)
  }

  /** A writer holds a capture and a report. */
  predicate Shaped(w: Writer) { IsCapture(w.capture.file) && IsReport(w.report.file) }

  /** The writer is linked, or the capture it holds is no longer there to be written. */
  ghost predicate Attached(d: Daemon) {
    d.task.writer.Some? ==>
      var w := d.task.writer.value;
      Shaped(w) && (w.capture in d.store.files ==> Linked(d.store, w))
  }

  ghost predicate KeepsLink(d: Daemon, d': Daemon) { WriterLinked(d) ==> WriterLinked(d') }

  lemma LinkedIsAttached(d: Daemon)
    requires WriterLinked(d)
    ensures Attached(d)
  {
    if d.task.writer.Some? {
      var e := d.store.entries[d.store.current.value];
      CaptureFiles(Qmdl, e.name, e.compressed);
      EndsWithSuffix(e.name, ".ndjson");
    }
  }

  /** The capture being written, if there is one. */
  predicate IsLive(d: Daemon, p: Path) {
    d.task.writer.Some? && d.task.writer.value.capture == p
  }

  predicate SameLabels(e: ManifestEntry, e': ManifestEntry) {
    && e.name == e'.name && e.compressed == e'.compressed
    && e.displayName == e'.displayName && e.notes == e'.notes && e.uploadTime == e'.uploadTime
  }

  /** Nobody named it, and it has been uploaded if uploads are set up. */
  predicate Unlabelled(e: ManifestEntry, uploads: bool) {
    e.displayName.None? && e.notes.None? && (uploads ==> e.uploadTime.Some?)
  }

  /** The report certifies its recording clean, or is the one still being written. */
  predicate ReadsClean(d: Daemon, report: Path, o: Outside) {
    || (report in d.store.files && CertifiesClean(d.store.files[report], o.json))
    || (d.task.writer.Some? && report == d.task.writer.value.report)
  }

  /** Pruning may take the capture `p` of a clean, unlabelled recording listed in `entries`. */
  ghost predicate MayPrune(cfg: Config, d: Daemon, dir: string, entries: seq<ManifestEntry>, o: Outside, p: Path) {
    && cfg.autoDelete
    && exists e :: e in entries && CapturePath(dir, e) == p && Unlabelled(e, cfg.uploads)
                   && ReadsClean(d, PathOf(dir, e, Analysis), o)
  }

  /** Other reports than the one being written only ever disappear. */
  ghost predicate ReportsKept(d: Daemon, d': Daemon) {
    forall p :: p in d'.store.files && IsReport(p.file) ==>
      p in d.store.files
      && (d'.store.files[p] == d.store.files[p] || (d.task.writer.Some? && p == d.task.writer.value.report))
  }

  ghost predicate EntriesFrom(entries: seq<ManifestEntry>, entries': seq<ManifestEntry>) {
    forall e' :: e' in entries' ==> exists e :: e in entries && SameLabels(e, e')
  }

  /** Every capture is kept, byte for byte unless it is the live one, or may be pruned; none is new. */
  ghost predicate CapturesKept(cfg: Config, d: Daemon, d': Daemon, o: Outside) {
    && (forall p :: p in Captures(d.store.files) ==>
          || (p in d'.store.files && (d'.store.files[p] == d.store.files[p] || IsLive(d, p)))
          || MayPrune(cfg, d, d.store.dir, d.store.entries, o, p))
    && (forall p :: p in Captures(d'.store.files) ==>
          p in Captures(d.store.files) && (d'.store.files[p] == d.store.files[p] || IsLive(d, p)))
  }

  ghost predicate CurrentFrom(s: Store, s': Store) {
    s'.current.Some? ==> IsCurrent(s, s'.entries[s'.current.value].name)
  }

  /** A part of a step that starts no recording. */
  ghost predicate Quiet(cfg: Config, d: Daemon, d': Daemon, o: Outside) {
    && d'.store.nextSequence == d.store.nextSequence && d'.upload == d.upload
    && d'.task.stoppedByUser == d.task.stoppedByUser
    && (d'.task.writer == d.task.writer || d'.task.writer.None?)
    && KeepsListed(d.store, d'.store)
    && ReportsKept(d, d')
    && EntriesFrom(d.store.entries, d'.store.entries)
    && CapturesKept(cfg, d, d', o)
    && CurrentFrom(d.store, d'.store)
    && Attached(d') && KeepsLink(d, d')
  }

  lemma MayPruneEarlier(cfg: Config, d: Daemon, d1: Daemon, o: Outside, p: Path)
    requires ReportsKept(d, d1) && EntriesFrom(d.store.entries, d1.store.entries)
    requires d1.task.writer == d.task.writer || d1.task.writer.None?
    requires MayPrune(cfg, d1, d.store.dir, d1.store.entries, o, p)
    ensures MayPrune(cfg, d, d.store.dir, d.store.entries, o, p)
  {
    var dir := d.store.dir;
    var e1 :| e1 in d1.store.entries && CapturePath(dir, e1) == p && Unlabelled(e1, cfg.uploads)
              && ReadsClean(d1, PathOf(dir, e1, Analysis), o);
    var e :| e in d.store.entries && SameLabels(e, e1);
    var report := PathOf(dir, e, Analysis);
    assert IsReport(report.file) by { EndsWithSuffix(e.name, ".ndjson"); }
    hide FileName, CertifiesClean;
    assert ReadsClean(d, report, o);
  }

  lemma CapturesCompose(cfg: Config, d: Daemon, d1: Daemon, d2: Daemon, o: Outside)
    requires Quiet(cfg, d, d1, o) && Quiet(cfg, d1, d2, o)
    ensures CapturesKept(cfg, d, d2, o)
  {
    hide MayPrune, KeepsListed, ReportsKept, EntriesFrom, CurrentFrom, Linked, IsCapture, Attached;
    forall p | p in Captures(d.store.files)
      ensures (p in d2.store.files && (d2.store.files[p] == d.store.files[p] || IsLive(d, p)))
              || MayPrune(cfg, d, d.store.dir, d.store.entries, o, p)
    {
      if p in d1.store.files && MayPrune(cfg, d1, d1.store.dir, d1.store.entries, o, p) {
        assert d1.store.dir == d.store.dir by { SameDir(d.store, d1.store); }
        MayPruneEarlier(cfg, d, d1, o, p);
      }
    }
  }

  lemma SameDir(s: Store, s': Store)
    requires KeepsListed(s, s')
    ensures s'.dir == s.dir
  {
  }

  lemma QuietComposes(cfg: Config, d: Daemon, d1: Daemon, d2: Daemon, o: Outside)
    requires Quiet(cfg, d, d1, o) && Quiet(cfg, d1, d2, o)
    ensures Quiet(cfg, d, d2, o)
  {
    CapturesCompose(cfg, d, d1, d2, o);
    hide MayPrune, Linked, IsCapture, FileName, SavedLists, Lists;
    ListingComposes(d.store, d1.store, d2.store);
    hide KeepsListed;
    forall e2 | e2 in d2.store.entries ensures exists e :: e in d.store.entries && SameLabels(e, e2) {
      var e1 :| e1 in d1.store.entries && SameLabels(e1, e2);
      var e :| e in d.store.entries && SameLabels(e, e1);
    }
    assert ReportsKept(d, d2);
  }

  // The parts steps are made of.

  lemma SameCaptures(cfg: Config, d: Daemon, d': Daemon, o: Outside)
    requires Captures(d'.store.files) == Captures(d.store.files)
    ensures CapturesKept(cfg, d, d', o)
  {
    hide IsCapture, MayPrune;
    assert forall q :: q in Captures(d.store.files) <==> q in Captures(d'.store.files);
    assert forall q :: q in Captures(d.store.files) ==> Captures(d.store.files)[q] == Captures(d'.store.files)[q];
  }

  lemma QuietTask(cfg: Config, d: Daemon, task: Task, o: Outside)
    requires Attached(d) && task.stoppedByUser == d.task.stoppedByUser
    requires task.writer == d.task.writer || task.writer.None?
    ensures Quiet(cfg, d, d.(task := task), o)
  {
    hide FileName, IsCapture, MayPrune, CapturePath;
    forall e | e in d.store.entries ensures SameLabels(e, e) {
    }
  }

  /** Writing to the capture in progress. */
  lemma QuietCapture(cfg: Config, d: Daemon, w: Writer, data: FileData, o: Outside)
    requires Attached(d) && d.task.writer == Some(w)
    ensures Quiet(cfg, d, d.(store := d.store.(files := Append(d.store.files, w.capture, data))), o)
  {
    if IsReport(w.capture.file) {
      ReportsAreNoCaptures(w.capture.file);
    }
    AppendTouchesOne(d.store.files, w.capture, data);
    SameEntries(d.store.entries);
    hide FileName, IsCapture, MayPrune, CapturePath, PathOf, IsReport, Append, EntriesFrom, Lists, SavedLists;
  }

  lemma AppendTouchesOne(files: Files, p: Path, data: FileData)
    ensures var files' := Append(files, p, data);
            files'.Keys == files.Keys && forall q :: q in files && q != p ==> files'[q] == files[q]
  {
  }

  lemma SameEntries(entries: seq<ManifestEntry>)
    ensures EntriesFrom(entries, entries)
  {
    forall e | e in entries ensures SameLabels(e, e) {
    }
  }

  /** Writing to a file that is neither a capture nor somebody else's report. */
  lemma QuietCompanion(cfg: Config, d: Daemon, p: Path, data: FileData, o: Outside)
    requires Attached(d) && !IsCapture(p.file)
    requires !IsReport(p.file) || (p in d.store.files && d.task.writer.Some? && p == d.task.writer.value.report)
    ensures Quiet(cfg, d, d.(store := d.store.(files := d.store.files[p := data])), o)
  {
    hide FileName, IsCapture, MayPrune, CapturePath, IsReport;
    var d' := d.(store := d.store.(files := d.store.files[p := data]));
    forall e | e in d.store.entries ensures SameLabels(e, e) {
    }
    CapturesUnchanged(d.store.files, p, data);
    SameCaptures(cfg, d, d', o);
    hide CapturesKept;
  }

  /** Rewriting the manifest without renaming, relabelling or moving the current entry. */
  lemma QuietManifest(cfg: Config, d: Daemon, s': Store, o: Outside)
    requires Attached(d) && Harmless(d.store, s') && SameLive(d.store, s')
    requires s'.files == d.store.files && s'.nextSequence == d.store.nextSequence
    requires forall i :: 0 <= i < |d.store.entries| ==> SameLabels(d.store.entries[i], s'.entries[i])
    ensures Quiet(cfg, d, d.(store := s'), o)
  {
    HarmlessKeepsListed(d.store, s');
    hide FileName, IsCapture, MayPrune, Harmless, KeepsListed;
    forall e' | e' in s'.entries ensures exists e :: e in d.store.entries && SameLabels(e, e') {
      var i :| 0 <= i < |s'.entries| && s'.entries[i] == e';
      assert SameLabels(d.store.entries[i], e');
    }
  }

  lemma SizeAndReasonKeepLabels(s: Store, size: nat, reason: string, o: Outside)
    ensures var t := UpdateCurrentSize(s, size, o).store;
            t.files == s.files && t.nextSequence == s.nextSequence
            && forall i :: 0 <= i < |s.entries| ==> SameLabels(s.entries[i], t.entries[i])
    ensures var t := SetStopReason(s, reason, o).store;
            t.files == s.files && t.nextSequence == s.nextSequence
            && forall i :: 0 <= i < |s.entries| ==> SameLabels(s.entries[i], t.entries[i])
  {
  }

  lemma QuietSize(cfg: Config, d: Daemon, size: nat, o: Outside)
    requires Attached(d)
    ensures Quiet(cfg, d, d.(store := UpdateCurrentSize(d.store, size, o).store), o)
  {
    hide Quiet, Harmless, SameLive, UpdateCurrentSize, SetStopReason;
    UpdatesAreHarmless(d.store, size, "", o);
    SizeAndReasonKeepLabels(d.store, size, "", o);
    QuietManifest(cfg, d, UpdateCurrentSize(d.store, size, o).store, o);
  }

  lemma QuietReason(cfg: Config, d: Daemon, reason: string, o: Outside)
    requires Attached(d)
    ensures Quiet(cfg, d, d.(store := SetStopReason(d.store, reason, o).store), o)
  {
    hide Quiet, Harmless, SameLive, UpdateCurrentSize, SetStopReason;
    UpdatesAreHarmless(d.store, 0, reason, o);
    SizeAndReasonKeepLabels(d.store, 0, reason, o);
    QuietManifest(cfg, d, SetStopReason(d.store, reason, o).store, o);
  }

  lemma QuietClose(cfg: Config, d: Daemon, o: Outside)
    requires d.task.writer.None?
    ensures Quiet(cfg, d, d.(store := CloseCurrent(d.store, o).store), o)
  {
    if d.store.current.Some? {
      var e := d.store.entries[d.store.current.value];
      CaptureFiles(Meta, e.name, e.compressed);
      NotAReport(Meta, e.name, e.compressed);
    }
    hide FileName, IsCapture, MayPrune, IsReport, Linked;
    CloseCurrentIsHarmless(d.store, o);
    HarmlessKeepsListed(d.store, CloseCurrent(d.store, o).store);
    forall e | e in d.store.entries ensures SameLabels(e, e) {
    }
    var d' := d.(store := CloseCurrent(d.store, o).store);
    SameCaptures(cfg, d, d', o);
    hide KeepsListed, Harmless, CapturePath, CapturesKept;
  }

  lemma StopWritingIsQuiet(cfg: Config, d: Daemon, o: Outside)
    requires Attached(d)
    ensures Quiet(cfg, d, StopWriting(d, o), o) && StopWriting(d, o).task.writer.None?
  {
    hide Quiet, UpdateCurrentSize, Append, Linked;
    match d.task.writer
    case None => QuietTask(cfg, d, d.task, o);
    case Some(w) =>
      var d1 := d.(store := d.store.(files := Append(d.store.files, w.capture, o.trailer)));
      QuietCapture(cfg, d, w, o.trailer, o);
      LinkedAfter(cfg, d, d1, o);
      var d2 := if o.closedSize.Some? then d1.(store := UpdateCurrentSize(d1.store, o.closedSize.value, o).store)
                else d1;
      if o.closedSize.Some? {
        QuietSize(cfg, d1, o.closedSize.value, o);
        QuietComposes(cfg, d, d1, d2, o);
      }
      LinkedAfter(cfg, d, d2, o);
      QuietTask(cfg, d2, d2.task.(writer := None), o);
      QuietComposes(cfg, d, d2, StopWriting(d, o), o);
  }

  lemma LinkedAfter(cfg: Config, d: Daemon, d': Daemon, o: Outside)
    requires Quiet(cfg, d, d', o)
    ensures Attached(d')
  {
  }

  /** Finishing an entry stops the writing and leaves no entry current. */
  lemma FinishIsQuiet(cfg: Config, d: Daemon, reason: Option<string>, o: Outside)
    requires Attached(d)
    ensures var d' := FinishEntry(d, reason, o);
            Quiet(cfg, d, d', o) && d'.task.writer.None? && d'.store.current.None?
  {
    hide Quiet, StopWriting, SetStopReason, CloseCurrent, Linked;
    var d1 := StopWriting(d, o);
    StopWritingIsQuiet(cfg, d, o);
    var d2 := d1.(store := if reason.Some? then SetStopReason(d1.store, reason.value, o).store else d1.store);
    if reason.Some? {
      QuietReason(cfg, d1, reason.value, o);
      QuietComposes(cfg, d, d1, d2, o);
    }
    var d3 := d2.(store := CloseCurrent(d2.store, o).store);
    QuietClose(cfg, d2, o);
    CloseCurrentIsHarmless(d2.store, o);
    QuietComposes(cfg, d, d2, d3, o);
    var d4 := FinishEntry(d, reason, o);
    QuietTask(cfg, d3, d4.task, o) by {
      assert d3.task == d1.task;
    }
    QuietComposes(cfg, d, d3, d4, o);
  }

  lemma StopIsQuiet(cfg: Config, d: Daemon, reason: Option<string>, o: Outside)
    requires Attached(d)
    ensures var d' := Stop(d, reason, o);
            Quiet(cfg, d, d', o) && d'.task.writer.None? && d'.store.current.None?
  {
    hide Quiet, FinishEntry, Linked;
    var d1 := FinishEntry(d, reason, o);
    FinishIsQuiet(cfg, d, reason, o);
    LinkedAfter(cfg, d, d1, o);
    QuietTask(cfg, d1, Stop(d, reason, o).task, o);
    QuietComposes(cfg, d, d1, Stop(d, reason, o), o);
  }

  lemma CleanMayBePruned(cfg: Config, d: Daemon, e: ManifestEntry, o: Outside, p: Path)
    requires cfg.autoDelete && e in d.store.entries && CapturePath(d.store.dir, e) == p
    requires EntryVerdict(d.store, e, cfg.uploads, o) == Clean
    ensures MayPrune(cfg, d, d.store.dir, d.store.entries, o, p)
  {
    hide FileName, CertifiesClean;
    assert Unlabelled(e, cfg.uploads) && ReadsClean(d, PathOf(d.store.dir, e, Analysis), o);
  }

  lemma LiveCaptureStays(d: Daemon, s': Store, uploads: bool, o: Outside)
    requires Attached(d) && OnlyCleanRemoved(d.store, s', uploads, o)
    ensures Attached(d.(store := s')) && KeepsLink(d, d.(store := s'))
  {
    if d.task.writer.Some? && d.task.writer.value.capture in d.store.files {
      var w, current := d.task.writer.value, d.store.entries[d.store.current.value];
      CaptureFiles(Qmdl, current.name, current.compressed);
      if w.capture !in s'.files {
        var e :| e in d.store.entries && CapturePath(d.store.dir, e) == w.capture
                 && EntryVerdict(d.store, e, uploads, o) == Clean;
        CaptureNameInjective(e.name, e.compressed, current.name, current.compressed);
        assert false;
      }
    }
  }

  lemma PrunedCapturesWereClean(cfg: Config, d: Daemon, s': Store, o: Outside)
    requires cfg.autoDelete && OnlyCleanRemoved(d.store, s', cfg.uploads, o)
    ensures CapturesKept(cfg, d, d.(store := s'), o)
    ensures EntriesFrom(d.store.entries, s'.entries)
    ensures ReportsKept(d, d.(store := s')) && CurrentFrom(d.store, s') && s'.nextSequence == d.store.nextSequence
  {
    hide IsCapture, EntryVerdict, CapturePath, MayPrune, IsReport;
    forall e | e in s'.entries ensures exists e0 :: e0 in d.store.entries && SameLabels(e0, e) {
      assert SameLabels(e, e);
    }
    forall p | p in Captures(d.store.files) && p !in s'.files
      ensures MayPrune(cfg, d, d.store.dir, d.store.entries, o, p)
    {
      var e :| e in d.store.entries && CapturePath(d.store.dir, e) == p
               && EntryVerdict(d.store, e, cfg.uploads, o) == Clean;
      CleanMayBePruned(cfg, d, e, o, p);
    }
  }

  lemma PruneIsQuiet(cfg: Config, d: Daemon, target: nat, o: Outside)
    requires Attached(d) && cfg.autoDelete
    ensures Quiet(cfg, d, d.(store := Prune(d.store, target, cfg.uploads, o).store), o)
  {
    var s' := Prune(d.store, target, cfg.uploads, o).store;
    PruneEffect(d.store, EntryNames(d.store.entries), target, cfg.uploads, o);
    assert s' == PruneNames(d.store, EntryNames(d.store.entries), target, cfg.uploads, o).store;
    hide Prune, PruneNames, OnlyCleanRemoved, Attached, KeepsLink, KeepsListed;
    hide CapturesKept, EntriesFrom, ReportsKept, CurrentFrom;
    LiveCaptureStays(d, s', cfg.uploads, o);
    PrunedCapturesWereClean(cfg, d, s', o);
  }

  lemma MakeRoomIsQuiet(cfg: Config, d: Daemon, o: Outside)
    requires Attached(d)
    ensures Quiet(cfg, d, MakeRoomToStart(cfg, d, o), o)
    ensures MakeRoomToStart(cfg, d, o).task == d.task
  {
    hide Quiet, Prune, Linked;
    QuietTask(cfg, d, d.task, o);
    if cfg.autoDelete {
      PruneIsQuiet(cfg, d, cfg.minStartMb, o);
    }
  }

  lemma CheckRoomIsQuiet(cfg: Config, d: Daemon, o: Outside)
    requires Attached(d)
    ensures var c := CheckRoom(cfg, d, o);
            && Quiet(cfg, d, c.daemon, o)
            && (if c.stopped then c.daemon.task.writer.None? else c.daemon.task.writer == d.task.writer)
  {
    hide Quiet, Prune, Stop, Linked;
    var d0 := d.(task := d.task.(bytesSinceCheck := 0));
    var c := CheckRoom(cfg, d, o);
    QuietTask(cfg, d, d.task, o);
    QuietTask(cfg, d, d0.task, o);
    LinkedAfter(cfg, d, d0, o);
    if d.task.bytesSinceCheck >= DISK_CHECK_BYTES_INTERVAL {
      match CheckSpace(cfg, d.store, o)
      case Critical(_) =>
        StopIsQuiet(cfg, d0, Some(o.wording), o);
        QuietComposes(cfg, d, d0, c.daemon, o);
      case Low(_) =>
        var d1 := d0.(store := c.daemon.store);
        QuietTask(cfg, d0, d0.task, o);
        if cfg.autoDelete {
          PruneIsQuiet(cfg, d0, cfg.minStartMb, o);
        }
        QuietComposes(cfg, d, d0, d1, o);
        LinkedAfter(cfg, d, d1, o);
        QuietTask(cfg, d1, c.daemon.task, o);
        QuietComposes(cfg, d, d1, c.daemon, o);
      case _ =>
    }
  }
}
