/** Steps that may open a new recording: it never displaces a capture that exists. */
module Starting {
  import opened Options
  import opened Names
  import opened StoreModel
  import opened StoreLemmas
  import opened RecoveryModel
  import opened DaemonModel
  import opened Lifecycle

  /** A name this step's clock and sequence numbers can make. */
  ghost predicate Tried(s: Store, o: Outside, name: string) {
    exists j: nat :: j < MAX_ATTEMPTS && NameAt(s, o, j) == name
  }

  function NameAt(s: Store, o: Outside, j: nat): string { EntryName(o.clock(j), s.nextSequence + j) }

  ghost predicate TriedCapture(s: Store, o: Outside, p: Path) {
    exists j: nat :: j < MAX_ATTEMPTS && p.file == FileName(Qmdl, NameAt(s, o, j), true)
  }

  /** Captures that pruning may take. */
  ghost function Prunable(cfg: Config, d: Daemon, o: Outside): iset<Path> {
    iset p | MayPrune(cfg, d, d.store.dir, d.store.entries, o, p)
  }

  /** Every capture but those that may go is kept: byte for byte, and without coming to be
      written, unless it was being written already. */
  ghost predicate Preserved(d: Daemon, d': Daemon, gone: iset<Path>) {
    forall p :: p in Captures(d.store.files) && p !in gone ==>
      p in d'.store.files
      && (IsLive(d, p) || (d'.store.files[p] == d.store.files[p] && !IsLive(d', p)))
  }

  ghost predicate StaysListed(d: Daemon, d': Daemon, gone: iset<Path>) {
    d'.store.dir == d.store.dir ==>
      forall p ::
        (p in Captures(d.store.files) && p in d'.store.files && p !in gone
         && Lists(d.store.entries, d.store.dir, p)) ==>
          Lists(d'.store.entries, d.store.dir, p) && (SavedLists(d.store, p) ==> SavedLists(d'.store, p))
  }

  /** A capture afterwards is one that was there, with its bytes unless it was being
      written, or is under a name this step tried. */
  ghost predicate CapturesFrom(d: Daemon, d': Daemon, o: Outside) {
    forall p :: p in Captures(d'.store.files) ==>
      || (p in Captures(d.store.files) && (d'.store.files[p] == d.store.files[p] || IsLive(d, p)))
      || TriedCapture(d.store, o, p)
  }

  /** What a part with at most one new recording does. */
  ghost predicate Progress(d: Daemon, d': Daemon, o: Outside, gone: iset<Path>) {
    && d'.upload == d.upload && d'.task.stoppedByUser == d.task.stoppedByUser && d'.store.dir == d.store.dir
    && KeepsLink(d, d')
    && Advance(d, d', o, gone)
  }

  /** What any step does to the recordings. */
  ghost predicate Advance(d: Daemon, d': Daemon, o: Outside, gone: iset<Path>) {
    && d'.store.nextSequence >= d.store.nextSequence
    && Attached(d')
    && Preserved(d, d', gone)
    && StaysListed(d, d', gone)
    && CapturesFrom(d, d', o)
    && (forall p :: IsLive(d', p) ==> IsLive(d, p) || TriedCapture(d.store, o, p))
    && (d'.store.current.Some? ==>
          var name := d'.store.entries[d'.store.current.value].name;
          IsCurrent(d.store, name) || Tried(d.store, o, name))
  }

  lemma QuietIsProgress(cfg: Config, d: Daemon, d': Daemon, o: Outside, gone: iset<Path>)
    requires Quiet(cfg, d, d', o) && Prunable(cfg, d, o) <= gone
    ensures Progress(d, d', o, gone)
  {
    hide MayPrune, IsCapture, Lists, SavedLists, Linked;
    forall p | p in Captures(d.store.files) && p !in gone
      ensures p in d'.store.files && (IsLive(d, p) || (d'.store.files[p] == d.store.files[p] && !IsLive(d', p)))
    {
      assert p !in Prunable(cfg, d, o);
    }
  }

  lemma PreservedComposes(d: Daemon, d1: Daemon, d2: Daemon, gone: iset<Path>, gone1: iset<Path>)
    requires Preserved(d, d1, gone) && Preserved(d1, d2, gone1) && gone1 <= gone
    ensures Preserved(d, d2, gone)
  {
    hide IsCapture;
  }

  lemma StaysListedComposes(d: Daemon, d1: Daemon, d2: Daemon, gone: iset<Path>, gone1: iset<Path>)
    requires d1.store.dir == d.store.dir && Preserved(d, d1, gone) && gone1 <= gone
    requires StaysListed(d, d1, gone) && StaysListed(d1, d2, gone1)
    ensures StaysListed(d, d2, gone)
  {
    hide IsCapture, Lists, SavedLists;
  }

  lemma SameTries(s: Store, s1: Store, o: Outside)
    requires s1.nextSequence == s.nextSequence
    ensures forall name :: Tried(s1, o, name) ==> Tried(s, o, name)
    ensures forall p :: TriedCapture(s1, o, p) ==> TriedCapture(s, o, p)
  {
    hide EntryName, FileName;
    forall j: nat ensures NameAt(s1, o, j) == NameAt(s, o, j) {
    }
    forall name | Tried(s1, o, name) ensures Tried(s, o, name) {
      var j: nat :| j < MAX_ATTEMPTS && NameAt(s1, o, j) == name;
      assert NameAt(s, o, j) == name;
    }
    forall p | TriedCapture(s1, o, p) ensures TriedCapture(s, o, p) {
      var j: nat :| j < MAX_ATTEMPTS && p.file == FileName(Qmdl, NameAt(s1, o, j), true);
      assert p.file == FileName(Qmdl, NameAt(s, o, j), true);
    }
  }

  /** Quiet parts may come before the part that starts a recording. */
  lemma QuietThenProgress(cfg: Config, d: Daemon, d1: Daemon, d2: Daemon, o: Outside)
    requires Quiet(cfg, d, d1, o) && Progress(d1, d2, o, Prunable(cfg, d1, o))
    ensures Progress(d, d2, o, Prunable(cfg, d, o))
  {
    var gone := Prunable(cfg, d, o);
    QuietIsProgress(cfg, d, d1, o, gone);
    SameDir(d.store, d1.store);
    PrunableShrinks(cfg, d, d1, o);
    SameTries(d.store, d1.store, o);
    hide Prunable, TriedCapture, Tried, Captures, CapturesKept, EntriesFrom, ReportsKept, KeepsListed, Attached;
    PreservedComposes(d, d1, d2, gone, Prunable(cfg, d1, o));
    StaysListedComposes(d, d1, d2, gone, Prunable(cfg, d1, o));
    hide Preserved, StaysListed;
  }

  lemma PrunableShrinks(cfg: Config, d: Daemon, d1: Daemon, o: Outside)
    requires Quiet(cfg, d, d1, o)
    ensures Prunable(cfg, d1, o) <= Prunable(cfg, d, o)
  {
    SameDir(d.store, d1.store);
    forall p | p in Prunable(cfg, d1, o) ensures p in Prunable(cfg, d, o) {
      MayPruneEarlier(cfg, d, d1, o, p);
    }
  }

  lemma CompanionsAreNoCaptures(cfg: Config, files: Files, gps: Path, meta: Path, o: Outside)
    requires !IsCapture(gps.file) && !IsCapture(meta.file)
    ensures Captures(Companions(cfg, files, gps, meta, o)) == Captures(files)
    ensures files.Keys <= Companions(cfg, files, gps, meta, o).Keys
  {
    hide IsCapture;
    var f := if cfg.fixedPosition.Some? then AppendOrCreate(files, gps, cfg.fixedPosition.value) else files;
    if cfg.fixedPosition.Some? {
      CapturesUnchanged(files, gps, f[gps]);
    }
    CapturesUnchanged(f, meta, o.sidecar);
  }

  lemma AppendingToNoCapture(files: Files, p: Path, data: FileData)
    requires !IsCapture(p.file)
    ensures Captures(Append(files, p, data)) == Captures(files) && Append(files, p, data).Keys == files.Keys
  {
    hide IsCapture;
  }

  /** Nothing changes but files that are no captures, and the writer may be opened on the
      current entry. */
  lemma BeginEffect(cfg: Config, d: Daemon, o: Outside)
    requires d.task.writer.None? && d.store.current.Some?
    requires var e := d.store.entries[d.store.current.value];
             e.compressed && CapturePath(d.store.dir, e) in d.store.files
    ensures var r := BeginWriting(cfg, d, o); var d' := r.daemon;
            && d'.store == d.store.(files := d'.store.files)
            && Captures(d'.store.files) == Captures(d.store.files)
            && d'.upload == d.upload && d'.task.stoppedByUser == d.task.stoppedByUser
            && Attached(d') && WriterLinked(d')
            && (r.outcome == Done <==> IsRecording(d'))
  {
    var e := d.store.entries[d.store.current.value];
    var report := PathOf(d.store.dir, e, Analysis);
    var gps, meta := PathOf(d.store.dir, e, Gps), PathOf(d.store.dir, e, Meta);
    CaptureFiles(Analysis, e.name, e.compressed);
    CaptureFiles(Gps, e.name, e.compressed);
    CaptureFiles(Meta, e.name, e.compressed);
    hide FileName, IsCapture, Captures, Append, Companions;
    CompanionsAreNoCaptures(cfg, d.store.files, gps, meta, o);
    AppendingToNoCapture(Companions(cfg, d.store.files, gps, meta, o), report, o.header);
    LinkedIsAttached(BeginWriting(cfg, d, o).daemon);
  }

  /** A name is claimed and, if all goes well, recording begins under it: no capture that
      exists is displaced. */
  lemma NewRecordingIsProgress(cfg: Config, d: Daemon, o: Outside)
    requires d.task.writer.None? && d.store.current.None?
    ensures var r := ClaimName(d.store, o, 0);
            var d1 := d.(store := r.store);
            Progress(d, if r.outcome == Done then BeginWriting(cfg, d1, o).daemon else d1, o, iset{})
  {
    var r := ClaimName(d.store, o, 0);
    ClaimNameEffect(d.store, o, 0);
    hide ClaimName, BeginWriting;
    if j: nat :| ClaimedAt(d.store, r.store, o, 0, j) {
      var e := FreshEntry(o.clock(j), d.store.nextSequence + j);
      ClaimedIsProgress(cfg, d, r, e, j, o);
    } else {
      hide IsCapture, Lists, SavedLists;
      assert Preserved(d, d.(store := r.store), iset{});
    }
  }

  lemma ClaimedIsProgress(cfg: Config, d: Daemon, r: Stepped, e: ManifestEntry, j: nat, o: Outside)
    requires d.task.writer.None? && d.store.current.None?
    requires j < MAX_ATTEMPTS && e == FreshEntry(o.clock(j), d.store.nextSequence + j)
    requires ClaimedAs(d.store, r.store, e) && r.store.nextSequence >= d.store.nextSequence
    requires r.store.dir == d.store.dir && (r.outcome == Done ==> r.store.current.Some?)
    ensures var d1 := d.(store := r.store);
            Progress(d, if r.outcome == Done then BeginWriting(cfg, d1, o).daemon else d1, o, iset{})
  {
    var s, d1 := d.store, d.(store := r.store);
    var d2 := if r.outcome == Done then BeginWriting(cfg, d1, o).daemon else d1;
    var q := CapturePath(s.dir, e);
    assert NameAt(s, o, j) == e.name && q.file == FileName(Qmdl, NameAt(s, o, j), true);
    assert TriedCapture(s, o, q) && Tried(s, o, e.name);
    assert q in Captures(r.store.files);
    if r.outcome == Done {
      BeginEffect(cfg, d1, o);
    }
    hide BeginWriting, FileName, EntryName, IsCapture, CapturePath, SavedLists;
    assert Captures(d2.store.files) == Captures(s.files)[q := []];
    forall p | p in Captures(s.files) ensures p in d2.store.files && d2.store.files[p] == s.files[p] && !IsLive(d2, p) {
      assert p in Captures(d2.store.files) && p != q;
      assert Captures(d2.store.files)[p] == Captures(s.files)[p];
    }
    ListedAfterClaim(d, d2, e);
  }

  lemma ListedAfterClaim(d: Daemon, d': Daemon, e: ManifestEntry)
    requires d'.store.dir == d.store.dir
    requires d'.store.entries == d.store.entries || d'.store.entries == d.store.entries + [e]
    requires d'.store.manifests == d.store.manifests
             || d'.store.manifests == d.store.manifests[d.store.dir := d'.store.entries]
    ensures StaysListed(d, d', iset{})
  {
    hide CapturePath, IsCapture;
    forall p | Lists(d.store.entries, d.store.dir, p) ensures Lists(d'.store.entries, d.store.dir, p) {
      var i :| 0 <= i < |d.store.entries| && CapturePath(d.store.dir, d.store.entries[i]) == p;
      assert d'.store.entries[i] == d.store.entries[i];
    }
  }

  lemma MoreMayGo(d: Daemon, d': Daemon, o: Outside, gone: iset<Path>, gone': iset<Path>)
    requires Progress(d, d', o, gone) && gone <= gone'
    ensures Progress(d, d', o, gone')
  {
    hide IsCapture, Lists, SavedLists, TriedCapture, Tried, Linked;
  }

  /** The same configuration, but pruning nothing: for parts that never prune. */
  function Unpruned(cfg: Config): Config { cfg.(autoDelete := false) }

  lemma NothingPrunable(cfg: Config, d: Daemon, o: Outside)
    ensures Prunable(Unpruned(cfg), d, o) == iset{}
  {
  }

  /** Quiet parts that prune nothing may follow. */
  lemma ProgressThenQuiet(cfg: Config, d: Daemon, d1: Daemon, d2: Daemon, o: Outside, gone: iset<Path>)
    requires Progress(d, d1, o, gone) && Quiet(Unpruned(cfg), d1, d2, o)
    ensures Progress(d, d2, o, gone)
  {
    NothingPrunable(cfg, d1, o);
    QuietIsProgress(Unpruned(cfg), d1, d2, o, iset{});
    SameDir(d1.store, d2.store);
    PreservedComposes(d, d1, d2, gone, iset{});
    NothingNew(Unpruned(cfg), d1, d2, o);
    hide IsCapture, Lists, SavedLists, TriedCapture, Tried, Linked, MayPrune, ReportsKept;
    hide EntriesFrom, KeepsListed, CapturesKept, Preserved;
    assert StaysListed(d, d2, gone) by {
      if d1.store.dir == d.store.dir {
        StaysListedComposes2(d, d1, d2, gone);
      }
    }
    hide StaysListed;
  }

  lemma NothingNew(cfg: Config, d: Daemon, d': Daemon, o: Outside)
    requires Quiet(cfg, d, d', o)
    ensures forall p :: p in Captures(d'.store.files) ==>
              p in Captures(d.store.files) && (d'.store.files[p] == d.store.files[p] || IsLive(d, p))
    ensures KeepsListed(d.store, d'.store)
  {
  }

  lemma StaysListedComposes2(d: Daemon, d1: Daemon, d2: Daemon, gone: iset<Path>)
    requires d1.store.dir == d.store.dir && StaysListed(d, d1, gone) && KeepsListed(d1.store, d2.store)
    requires forall p :: p in Captures(d2.store.files) ==> p in Captures(d1.store.files)
    ensures StaysListed(d, d2, gone)
  {
    hide IsCapture, Lists, SavedLists;
    forall p: Path | IsCapture(p.file) && p in d2.store.files ensures p in d1.store.files {
      assert p in Captures(d2.store.files);
    }
  }

  lemma StartInnerIsProgress(cfg: Config, d: Daemon, o: Outside)
    requires Attached(d)
    ensures Progress(d, StartInner(cfg, d, o).daemon, o, Prunable(cfg, d, o))
  {
    hide Quiet, Progress, Linked, Attached, Prunable, MakeRoomToStart;
    hide FinishEntry, CloseCurrent, ClaimName, BeginWriting;
    var d0 := d.(task := d.task.(maxTypeSeen := 0, bytesSinceCheck := 0, lowSpaceWarned := false));
    QuietTask(cfg, d, d0.task, o);
    LinkedAfter(cfg, d, d0, o);
    var d1 := MakeRoomToStart(cfg, d0, o);
    MakeRoomIsQuiet(cfg, d0, o);
    QuietComposes(cfg, d, d0, d1, o);
    LinkedAfter(cfg, d, d1, o);
    QuietIsProgress(cfg, d, d1, o, Prunable(cfg, d, o));
    var check := CheckSpace(cfg, d1.store, o);
    if !check.Critical? && !check.Low? {
      var d2 := if IsRecording(d1) then FinishEntry(d1, None, o) else d1;
      if IsRecording(d1) {
        FinishIsQuiet(cfg, d1, None, o);
        QuietComposes(cfg, d, d1, d2, o);
      }
      var d3 := d2.(store := if d2.store.current.Some? then CloseCurrent(d2.store, o).store else d2.store);
      CloseCurrentIsHarmless(d2.store, o);
      if d2.store.current.Some? {
        QuietClose(cfg, d2, o);
        QuietComposes(cfg, d, d2, d3, o);
      }
      var d4 := StartInner(cfg, d, o).daemon;
      NewRecordingIsProgress(cfg, d3, o);
      assert ClaimName(d3.store, o, 0) == NewEntry(d2.store, o);
      MoreMayGo(d3, d4, o, iset{}, Prunable(cfg, d3, o));
      QuietThenProgress(cfg, d, d3, d4, o);
    }
  }

  lemma ShowIsQuiet(cfg: Config, d: Daemon, o: Outside, task: Task)
    requires Attached(d) && task.stoppedByUser == d.task.stoppedByUser && task.writer == d.task.writer
    ensures Quiet(Unpruned(cfg), d, d.(task := task), o)
  {
    QuietTask(Unpruned(cfg), d, task, o);
  }

  lemma LinkedNow(d: Daemon, d': Daemon, o: Outside, gone: iset<Path>)
    requires Progress(d, d', o, gone)
    ensures Attached(d')
  {
  }

  lemma StartIsProgress(cfg: Config, d: Daemon, o: Outside)
    requires Attached(d)
    ensures Progress(d, Start(cfg, d, o).daemon, o, Prunable(cfg, d, o))
  {
    hide Quiet, Progress, Attached, Prunable, StartInner;
    var d1 := StartInner(cfg, d, o).daemon;
    StartInnerIsProgress(cfg, d, o);
    LinkedNow(d, d1, o, Prunable(cfg, d, o));
    if StartInner(cfg, d, o).outcome != Done {
      ShowIsQuiet(cfg, d1, o, Start(cfg, d, o).daemon.task);
      ProgressThenQuiet(cfg, d, d1, Start(cfg, d, o).daemon, o, Prunable(cfg, d, o));
    }
  }

  lemma RotateIsProgress(cfg: Config, d: Daemon, o: Outside)
    requires Attached(d)
    ensures Progress(d, Rotate(cfg, d, o), o, Prunable(cfg, d, o))
  {
    hide Quiet, Progress, Attached, Prunable, Start, Stop, FinishEntry;
    var gone := Prunable(cfg, d, o);
    var d1 := FinishEntry(d, Some(o.wording), o);
    FinishIsQuiet(cfg, d, Some(o.wording), o);
    LinkedAfter(cfg, d, d1, o);
    var r := Start(cfg, d1, o);
    StartIsProgress(cfg, d1, o);
    QuietThenProgress(cfg, d, d1, r.daemon, o);
    LinkedNow(d, r.daemon, o, gone);
    if r.outcome != Done {
      StopIsQuiet(Unpruned(cfg), r.daemon, Some(o.wording), o);
    } else {
      ShowIsQuiet(cfg, r.daemon, o, Rotate(cfg, d, o).task);
    }
    ProgressThenQuiet(cfg, d, r.daemon, Rotate(cfg, d, o), o, gone);
  }
}
