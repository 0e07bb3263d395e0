/** What every run of the daemon keeps: the writer and the current entry stay together, a
    user's stop holds, and a closed recording is never altered and goes only for a reason. */
module Safety {
  import opened Options
  import opened Names
  import opened StoreModel
  import opened StoreLemmas
  import opened CleanupModel
  import opened RecoveryModel
  import opened DaemonModel
  import opened Lifecycle
  import opened Starting

  // Containers and storage switches.

  lemma AnalysedIsQuiet(cfg: Config, d: Daemon, w: Writer, c: Container, o: Outside)
    requires Attached(d) && d.task.writer == Some(w)
    ensures Quiet(cfg, d, Analysed(d, w, c), o)
  {
    ReportsAreNoCaptures(w.report.file);
    var d1 := d.(store := d.store.(files := Append(d.store.files, w.report, c.report)));
    QuietTask(cfg, d, d.task, o);
    if w.report in d.store.files {
      QuietCompanion(cfg, d, w.report, d.store.files[w.report] + c.report, o);
    }
    hide Quiet, FileName, IsCapture, Linked, Append;
    LinkedAfter(cfg, d, d1, o);
    QuietTask(cfg, d1, Analysed(d, w, c).task, o);
    QuietComposes(cfg, d, d1, Analysed(d, w, c), o);
  }

  lemma WriteContainerIsProgress(cfg: Config, d: Daemon, w: Writer, c: Container, o: Outside)
    requires Attached(d) && d.task.writer == Some(w)
    ensures Progress(d, WriteContainer(cfg, d, w, c, o), o, Prunable(cfg, d, o))
  {
    hide Quiet, Progress, Attached, Prunable, Rotate, Stop, Analysed, UpdateCurrentSize, Append;
    var gone, d' := Prunable(cfg, d, o), WriteContainer(cfg, d, w, c, o);
    var data := if c.written then [c.block] else c.torn;
    var d1 := d.(store := d.store.(files := Append(d.store.files, w.capture, data)));
    QuietCapture(cfg, d, w, data, o);
    LinkedAfter(cfg, d, d1, o);
    var d2 := if c.written && c.fileSize.Some? then d1.(store := UpdateCurrentSize(d1.store, c.fileSize.value, o).store)
              else d1;
    if c.written && c.fileSize.Some? {
      QuietSize(cfg, d1, c.fileSize.value, o);
      QuietComposes(cfg, d, d1, d2, o);
    }
    LinkedAfter(cfg, d, d2, o);
    if !c.written || (c.fileSize.Some? && UpdateCurrentSize(d1.store, c.fileSize.value, o).outcome != Done) {
      StopIsQuiet(cfg, d2, Some(o.wording), o);
      QuietComposes(cfg, d, d2, d', o);
      QuietIsProgress(cfg, d, d', o, gone);
    } else {
      var d3 := Analysed(d2, w, c);
      AnalysedIsQuiet(cfg, d2, w, c, o);
      QuietComposes(cfg, d, d2, d3, o);
      LinkedAfter(cfg, d, d3, o);
      QuietIsProgress(cfg, d, d3, o, gone);
      RotateIsProgress(cfg, d3, o);
      QuietThenProgress(cfg, d, d3, Rotate(cfg, d3, o), o);
    }
  }

  lemma ProcessContainerIsProgress(cfg: Config, d: Daemon, c: Container, o: Outside)
    requires Attached(d)
    ensures Progress(d, ProcessContainer(cfg, d, c, o), o, Prunable(cfg, d, o))
  {
    hide Quiet, Progress, Attached, Prunable, CheckRoom, WriteContainer;
    var gone := Prunable(cfg, d, o);
    QuietTask(cfg, d, d.task, o);
    QuietIsProgress(cfg, d, d, o, gone);
    if c.userSpace && d.task.writer.Some? {
      var checked := CheckRoom(cfg, d, o);
      CheckRoomIsQuiet(cfg, d, o);
      LinkedAfter(cfg, d, checked.daemon, o);
      QuietIsProgress(cfg, d, checked.daemon, o, gone);
      if !checked.stopped {
        WriteContainerIsProgress(cfg, checked.daemon, d.task.writer.value, c, o);
        QuietThenProgress(cfg, d, checked.daemon, ProcessContainer(cfg, d, c, o), o);
      }
    }
  }

  /** The store a switch moves to, once what is being recorded has been finished. */
  function Moved(d: Daemon, dir: string, look: Look, o: Outside): Stepped {
    OpenOrRecover((if IsRecording(d) then FinishEntry(d, Some(o.wording), o) else d).store, dir, look, o)
  }

  /** Captures a switch may prune: in the old directory if it stays there, else in the new. */
  ghost function SwitchPrunable(cfg: Config, d: Daemon, dir: string, look: Look, o: Outside): iset<Path> {
    if d.store.dir == dir || Moved(d, dir, look, o).outcome != Done then Prunable(cfg, d, o)
    else iset p | MayPrune(cfg, d, dir, Moved(d, dir, look, o).store.entries, o, p)
  }

  lemma OpeningKeepsFiles(s: Store, dir: string, look: Look, o: Outside)
    ensures var r := OpenOrRecover(s, dir, look, o);
            && r.store.files == s.files && r.store.nextSequence == s.nextSequence
            && (if r.outcome == Done then r.store.dir == dir && r.store.current.None? else r.store == s)
  {
    hide RecoveredEntries;
  }

  /** The recordings that pruning considers after the switch read clean before it. */
  lemma PrunableAfterMove(cfg: Config, d: Daemon, d1: Daemon, d2: Daemon, dir: string, o: Outside)
    requires Quiet(Unpruned(cfg), d, d1, o) && d1.task.writer.None?
    requires d2.task == d1.task && d2.store.files == d1.store.files && d2.store.dir == dir
    ensures forall p :: p in Prunable(cfg, d2, o) ==> MayPrune(cfg, d, dir, d2.store.entries, o, p)
  {
    forall p | p in Prunable(cfg, d2, o) ensures MayPrune(cfg, d, dir, d2.store.entries, o, p) {
      var e :| e in d2.store.entries && CapturePath(dir, e) == p && Unlabelled(e, cfg.uploads)
               && ReadsClean(d2, PathOf(dir, e, Analysis), o);
      var report := PathOf(dir, e, Analysis);
      assert IsReport(report.file) by { EndsWithSuffix(e.name, ".ndjson"); }
      ReadsCleanBefore(Unpruned(cfg), d, d1, report, o);
    }
  }

  lemma ReadsCleanBefore(cfg: Config, d: Daemon, d1: Daemon, report: Path, o: Outside)
    requires Quiet(cfg, d, d1, o) && d1.task.writer.None? && IsReport(report.file)
    requires ReadsClean(d1, report, o)
    ensures ReadsClean(d, report, o)
  {
    hide CertifiesClean, CapturesKept, KeepsListed, EntriesFrom, CurrentFrom, Attached;
  }

  lemma MovedOn(d: Daemon, d1: Daemon, d2: Daemon, d3: Daemon, o: Outside, gone: iset<Path>)
    requires Progress(d, d1, o, iset{}) && d1.task.writer.None?
    requires d1.store.nextSequence == d.store.nextSequence
    requires forall p :: p in Captures(d1.store.files) ==> p in Captures(d.store.files)
    requires d2.task == d1.task && d2.store.files == d1.store.files && d2.store.current.None?
    requires d2.store.nextSequence == d1.store.nextSequence && d2.store.dir != d.store.dir
    requires Progress(d2, d3, o, gone)
    ensures Advance(d, d3, o, gone) && WriterLinked(d3)
  {
    assert Preserved(d1, d2, iset{});
    PreservedComposes(d, d1, d2, iset{}, iset{});
    assert Preserved(d, d2, gone);
    PreservedComposes(d, d2, d3, gone, gone);
    SameTries(d.store, d2.store, o);
    hide IsCapture, Preserved, Tried, TriedCapture, Lists, SavedLists, Linked;
  }

  lemma SwitchIsAdvance(cfg: Config, d: Daemon, dir: string, look: Look, o: Outside)
    requires Attached(d)
    ensures var d' := SwitchStore(cfg, d, dir, look, o).daemon;
            && Advance(d, d', o, SwitchPrunable(cfg, d, dir, look, o)) && KeepsLink(d, d')
            && d'.upload == d.upload && d'.task.stoppedByUser == d.task.stoppedByUser
  {
    hide Quiet, Advance, Attached, Start, FinishEntry, OpenOrRecover, MayPrune, Prunable;
    var gone, d' := SwitchPrunable(cfg, d, dir, look, o), SwitchStore(cfg, d, dir, look, o).daemon;
    var d1 := if IsRecording(d) then FinishEntry(d, Some(o.wording), o) else d;
    FinishIsQuiet(cfg, d, Some(o.wording), o);
    FinishIsQuiet(Unpruned(cfg), d, Some(o.wording), o);
    QuietTask(cfg, d, d.task, o);
    QuietTask(Unpruned(cfg), d, d.task, o);
    LinkedAfter(cfg, d, d1, o);
    QuietIsProgress(cfg, d, d1, o, Prunable(cfg, d, o));
    StartIsProgress(cfg, d1, o);
    QuietThenProgress(cfg, d, d1, Start(cfg, d1, o).daemon, o);
    if d.store.dir != dir && Moved(d, dir, look, o).outcome == Done {
      var d2 := d1.(store := Moved(d, dir, look, o).store);
      OpeningKeepsFiles(d1.store, dir, look, o);
      NothingPrunable(cfg, d, o);
      QuietIsProgress(Unpruned(cfg), d, d1, o, iset{});
      NothingNew(Unpruned(cfg), d, d1, o);
      QuietSequence(Unpruned(cfg), d, d1, o);
      PrunableAfterMove(cfg, d, d1, d2, dir, o);
      assert Prunable(cfg, d2, o) <= gone;
      NoWriterIsLinked(d2);
      StartIsProgress(cfg, d2, o);
      MoreMayGo(d2, Start(cfg, d2, o).daemon, o, Prunable(cfg, d2, o), gone);
      MovedOn(d, d1, d2, Start(cfg, d2, o).daemon, o, gone);
      QuietTask(cfg, d2, d2.task, o);
      QuietIsProgress(cfg, d2, d2, o, gone);
      MovedOn(d, d1, d2, d2, o, gone);
    }
  }

  lemma QuietSequence(cfg: Config, d: Daemon, d': Daemon, o: Outside)
    requires Quiet(cfg, d, d', o)
    ensures d'.store.nextSequence == d.store.nextSequence
  {
  }

  lemma NoWriterIsLinked(d: Daemon)
    requires d.task.writer.None?
    ensures Attached(d)
  {
  }
}
