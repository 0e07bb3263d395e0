/** The one way the writer can lose its entry, from a store at rest: a recording uploaded and deleted
    by hand, its name made again by a clock set back, and the upload then concluded. */
module NameReuse {
  import opened Options
  import opened Names
  import opened StoreModel
  import opened StoreLemmas
  import opened CleanupModel
  import opened RecoveryModel
  import opened DaemonModel
  import opened Lifecycle
  import opened Runs
  import opened Uploads

  /** Nothing fails, and the clock reads the same second all the time. */
  function Calm(seconds: int): Outside {
    Outside({}, {}, (dir: string, entries: seq<ManifestEntry>) => true, (files: Files) => None, (j: nat) => seconds,
            seconds + 1, 0, [], (line: string) => None, {}, [], None, [], "")
  }

  function Kept(seconds: int, sequence: nat): ManifestEntry { FreshEntry(seconds, sequence) }

  /** One recording of an earlier run of the program; this one counts from its number again. */
  function OneRecording(dir: string, seconds: int, sequence: nat): Daemon {
    var e := Kept(seconds, sequence);
    Daemon(RawStore(map[CapturePath(dir, e) := []], map[], dir, [e], None, sequence),
           Task(None, 0, 0, false, false, None, [], []), None)
  }

  function Steps(seconds: int, sequence: nat): seq<Step> {
    var o := Calm(seconds);
    [Step(Pick(0), o), Step(Put(Qmdl, true), o), Step(Put(Analysis, true), o), Step(Put(Gps, true), o),
     Step(Put(Meta, true), o), Step(Delete(EntryName(seconds, sequence)), o), Step(StartRecording, o),
     Step(Conclude(true), o)]
  }

  /** What the worker has noted once every file has been tried. */
  function Uploaded(dir: string, e: ManifestEntry): Upload {
    Upload(e.name, map[Qmdl := Sent(CapturePath(dir, e), []), Analysis := Absent(PathOf(dir, e, Analysis)),
                       Gps := Absent(PathOf(dir, e, Gps)), Meta := Absent(PathOf(dir, e, Meta))])
  }

  lemma FourFiles(dir: string, e: ManifestEntry)
    ensures var q, a, g, m := CapturePath(dir, e), PathOf(dir, e, Analysis), PathOf(dir, e, Gps), PathOf(dir, e, Meta);
            q != a && q != g && q != m && a != g && a != m && g != m
  {
    CaptureFiles(Qmdl, e.name, e.compressed);
    CaptureFiles(Analysis, e.name, e.compressed);
    CaptureFiles(Gps, e.name, e.compressed);
    CaptureFiles(Meta, e.name, e.compressed);
    assert |FileName(Gps, e.name, e.compressed)| == |e.name| + 11;
    assert |FileName(Analysis, e.name, e.compressed)| == |e.name| + 7;
    assert |FileName(Meta, e.name, e.compressed)| == |e.name| + 10;
  }

  lemma AfterPick(cfg: Config, dir: string, seconds: int, sequence: nat)
    ensures var d, e := OneRecording(dir, seconds, sequence), Kept(seconds, sequence);
            Then(cfg, d, Steps(seconds, sequence), 1) == d.(upload := Some(Upload(e.name, map[])))
  {
    var d, steps := OneRecording(dir, seconds, sequence), Steps(seconds, sequence);
    NoStepsYet(cfg, d, steps);
    ThenOneMore(cfg, d, steps, 0);
    hide Then, EntryName, CapturePath;
    assert OldestUploadable(d.store, 1, 0, seconds + 1) == Some(0) by {
      assert OldestUploadable(d.store, 0, 0, seconds + 1).None?;
    }
  }

  /** One file tried: the capture is sent, the others are not there. */
  lemma OnePut(cfg: Config, dir: string, seconds: int, sequence: nat, results: map<FileKind, UploadResult>,
               kind: FileKind)
    requires kind !in results
    ensures var e := Kept(seconds, sequence);
            var d := OneRecording(dir, seconds, sequence).(upload := Some(Upload(e.name, results)));
            var p := PathOf(dir, e, kind);
            Next(cfg, d, Step(Put(kind, true), Calm(seconds)))
            == d.(upload := Some(Upload(e.name, results[kind := if kind == Qmdl then Sent(p, []) else Absent(p)])))
  {
    FourFiles(dir, Kept(seconds, sequence));
    hide EntryName, FileName;
  }

  lemma AfterUpload(cfg: Config, dir: string, seconds: int, sequence: nat)
    ensures var d, e := OneRecording(dir, seconds, sequence), Kept(seconds, sequence);
            Then(cfg, d, Steps(seconds, sequence), 5) == d.(upload := Some(Uploaded(dir, e)))
  {
    hide *;
    var d, e := OneRecording(dir, seconds, sequence), Kept(seconds, sequence);
    AfterPick(cfg, dir, seconds, sequence);
    FourPuts(cfg, d, seconds, sequence);
    var none: map<FileKind, UploadResult> := map[];
    var q, a := none[Qmdl := Sent(PathOf(dir, e, Qmdl), [])], Absent(PathOf(dir, e, Analysis));
    var g, m := Absent(PathOf(dir, e, Gps)), Absent(PathOf(dir, e, Meta));
    OnePut(cfg, dir, seconds, sequence, none, Qmdl);
    OnePut(cfg, dir, seconds, sequence, q, Analysis);
    OnePut(cfg, dir, seconds, sequence, q[Analysis := a], Gps);
    OnePut(cfg, dir, seconds, sequence, q[Analysis := a][Gps := g], Meta);
    AllNoted(dir, e);
  }

  lemma FourPuts(cfg: Config, d: Daemon, seconds: int, sequence: nat)
    ensures var steps, o := Steps(seconds, sequence), Calm(seconds);
            && Then(cfg, d, steps, 2) == Next(cfg, Then(cfg, d, steps, 1), Step(Put(Qmdl, true), o))
            && Then(cfg, d, steps, 3) == Next(cfg, Then(cfg, d, steps, 2), Step(Put(Analysis, true), o))
            && Then(cfg, d, steps, 4) == Next(cfg, Then(cfg, d, steps, 3), Step(Put(Gps, true), o))
            && Then(cfg, d, steps, 5) == Next(cfg, Then(cfg, d, steps, 4), Step(Put(Meta, true), o))
  {
    hide Next, Then;
    var steps := Steps(seconds, sequence);
    ThenOneMore(cfg, d, steps, 1);
    ThenOneMore(cfg, d, steps, 2);
    ThenOneMore(cfg, d, steps, 3);
    ThenOneMore(cfg, d, steps, 4);
  }

  lemma AllNoted(dir: string, e: ManifestEntry)
    ensures var none: map<FileKind, UploadResult> := map[];
            Uploaded(dir, e)
            == Upload(e.name, none[Qmdl := Sent(PathOf(dir, e, Qmdl), [])][Analysis := Absent(PathOf(dir, e, Analysis))]
                                  [Gps := Absent(PathOf(dir, e, Gps))][Meta := Absent(PathOf(dir, e, Meta))])
    ensures PathOf(dir, e, Qmdl) == CapturePath(dir, e)
  {
  }

  /** The store once the recording has been deleted by hand. */
  function Emptied(dir: string, seconds: int, sequence: nat): Store {
    RawStore(map[], map[dir := []], dir, [], None, sequence)
  }

  lemma AfterDelete(cfg: Config, dir: string, seconds: int, sequence: nat)
    ensures var d, e := OneRecording(dir, seconds, sequence), Kept(seconds, sequence);
            Then(cfg, d, Steps(seconds, sequence), 6)
            == d.(store := Emptied(dir, seconds, sequence), upload := Some(Uploaded(dir, e)))
  {
    var d, e, steps := OneRecording(dir, seconds, sequence), Kept(seconds, sequence), Steps(seconds, sequence);
    var o := Calm(seconds);
    AfterUpload(cfg, dir, seconds, sequence);
    ThenOneMore(cfg, d, steps, 5);
    hide Then, EntryName, FileName, Uploaded;
    var paths := EntryPaths(dir, e);
    assert paths[0] == CapturePath(dir, e);
    var removal := RemoveFiles(d.store.files, paths, {});
    assert removal.files == map[];
    hide RemoveFiles, EntryPaths;
    assert DeleteEntry(d.store, e.name, o).store == Emptied(dir, seconds, sequence);
  }

  /** The clock back at the second, the counter at the number: the same name is claimed. */
  lemma SameNameAgain(dir: string, seconds: int, sequence: nat)
    ensures var s, e := Emptied(dir, seconds, sequence), Kept(seconds, sequence);
            var r := NewEntry(s, Calm(seconds));
            r.outcome == Done && r.store.entries == [e] && r.store.current == Some(0) && r.store.dir == dir
  {
    FourFiles(dir, Kept(seconds, sequence));
    hide EntryName, FileName;
    var s, o := Emptied(dir, seconds, sequence), Calm(seconds);
    assert NewEntry(s, o) == CreateFiles(s.(nextSequence := sequence + 1), FreshEntry(o.clock(0), sequence), o);
  }

  lemma AfterStart(cfg: Config, dir: string, seconds: int, sequence: nat)
    requires cfg.fixedPosition.None?
    ensures var d, e := OneRecording(dir, seconds, sequence), Kept(seconds, sequence);
            var d' := Then(cfg, d, Steps(seconds, sequence), 7);
            && d'.store.entries == [e] && d'.store.current == Some(0) && d'.store.dir == dir
            && d'.upload == Some(Uploaded(dir, e))
            && d'.task.writer == Some(Writer(CapturePath(dir, e), PathOf(dir, e, Analysis)))
  {
    var d, e, steps := OneRecording(dir, seconds, sequence), Kept(seconds, sequence), Steps(seconds, sequence);
    AfterDelete(cfg, dir, seconds, sequence);
    ThenOneMore(cfg, d, steps, 6);
    SameNameAgain(dir, seconds, sequence);
    hide Then, EntryName, FileName, Uploaded, NewEntry, Prune, Companions, Append;
  }

  /** The entry the worker will find is the one being recorded, and nothing stops its deletion. */
  lemma WorkerTakesTheWriter(d: Daemon, dir: string, seconds: int, sequence: nat)
    requires var e := Kept(seconds, sequence);
             && d.store.entries == [e] && d.store.current == Some(0) && d.store.dir == dir
             && d.upload == Some(Uploaded(dir, e))
             && d.task.writer == Some(Writer(CapturePath(dir, e), PathOf(dir, e, Analysis)))
    ensures Unlinks(d, Step(Conclude(true), Calm(seconds)))
  {
    hide EntryName, FileName, CapturePath, PathOf;
    var e := Kept(seconds, sequence);
    assert FindEntry(d.store.entries, e.name) == Some(0);
    assert AllSent(d.upload.value);
    assert Takes(d, e.name, Calm(seconds));
  }

  lemma StartLinks(cfg: Config, d: Daemon, step: Step)
    requires d.task.writer.None? && step.event.StartRecording?
    ensures WriterLinked(Next(cfg, d, step))
  {
    hide Next;
    StepKeepsLinkExactly(cfg, d, step);
  }

  /** The run from rest that loses the link: its last step is the upload worker deleting the file the
      writer holds, after which the recording goes on without an entry. */
  lemma ReusedNameUnlinks(cfg: Config, dir: string, seconds: int, sequence: nat)
    requires cfg.fixedPosition.None?
    ensures var d, steps := OneRecording(dir, seconds, sequence), Steps(seconds, sequence);
            && AtRest(d) && d.store.entries[0].name == EntryName(seconds, sequence)
            && d.store.nextSequence <= sequence
            && Unlinks(Then(cfg, d, steps, 7), steps[7])
            && IsRecording(Run(cfg, d, steps)) && !WriterLinked(Run(cfg, d, steps))
  {
    hide *;
    hide Then;
    var d, steps := OneRecording(dir, seconds, sequence), Steps(seconds, sequence);
    TheSteps(cfg, d, seconds, sequence);
    AtRestWithOne(dir, seconds, sequence);
    var d6, d7 := Then(cfg, d, steps, 6), Then(cfg, d, steps, 7);
    AfterDelete(cfg, dir, seconds, sequence);
    AfterStart(cfg, dir, seconds, sequence);
    StartLinks(cfg, d6, steps[6]);
    WorkerTakesTheWriter(d7, dir, seconds, sequence);
    StepKeepsLinkExactly(cfg, d7, steps[7]);
    UnlinkedStillRecords(Run(cfg, d, steps));
  }

  lemma UnlinkedStillRecords(d: Daemon)
    ensures !WriterLinked(d) ==> IsRecording(d)
  {
  }

  lemma AtRestWithOne(dir: string, seconds: int, sequence: nat)
    ensures var d := OneRecording(dir, seconds, sequence);
            && AtRest(d) && d.task.writer.None? && |d.store.entries| == 1 && d.store.nextSequence == sequence
            && d.store.entries[0].name == EntryName(seconds, sequence)
  {
  }

  lemma TheSteps(cfg: Config, d: Daemon, seconds: int, sequence: nat)
    ensures var steps, o := Steps(seconds, sequence), Calm(seconds);
            && |steps| == 8 && steps[6] == Step(StartRecording, o) && steps[7] == Step(Conclude(true), o)
            && Then(cfg, d, steps, 7) == Next(cfg, Then(cfg, d, steps, 6), steps[6])
            && Run(cfg, d, steps) == Next(cfg, Then(cfg, d, steps, 7), steps[7])
  {
    hide Next, Run;
    var steps := Steps(seconds, sequence);
    ThenOneMore(cfg, d, steps, 6);
    ThenOneMore(cfg, d, steps, 7);
    assert steps[..8] == steps;
  }
}
