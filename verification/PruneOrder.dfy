/** What pruning removes, for any manifest: of the recordings considered until there is room, those
    that are the first of their name, read clean when their turn comes and can be deleted. */
module PruneOrder {
  import opened Options
  import opened Names
  import opened StoreModel
  import opened StoreLemmas
  import opened CleanupModel
  import opened Cleanup

  /** Nothing stops its files from being removed. */
  predicate Deletable(s: Store, e: ManifestEntry, o: Outside) {
    forall p :: p in EntryPaths(s.dir, e) && p in s.files ==> p !in o.stuck
  }

  /** What the documentation lets pruning take: reads clean and can be deleted. */
  predicate Victim(s: Store, e: ManifestEntry, uploads: bool, o: Outside) {
    EntryVerdict(s, e, uploads, o) == Clean && Deletable(s, e, o)
  }

  /** The name finds this entry and not an earlier one. */
  predicate IsFirst(s: Store, k: nat)
    requires k < |s.entries|
  {
    FindEntry(s.entries, s.entries[k].name) == Some(k)
  }

  /** Deleting `e`, even half way, takes the report of `other`, called like its position file. */
  predicate TakesReport(s: Store, e: ManifestEntry, other: ManifestEntry, o: Outside) {
    && other.name == e.name + "-gps"
    && forall p :: p in EntryPaths(s.dir, e)[..3] && p in s.files ==> p !in o.stuck
  }

  /** Entry `j` still reads clean once the first `k` have been considered. */
  predicate StillClean(s: Store, j: nat, k: nat, uploads: bool, o: Outside)
    requires k <= j < |s.entries|
    decreases k, 0
  {
    && EntryVerdict(s, s.entries[j], uploads, o) == Clean
    && forall i :: 0 <= i < k && Tried(s, i, uploads, o) ==> !TakesReport(s, s.entries[i], s.entries[j], o)
  }

  /** Its deletion is attempted when its turn comes. */
  predicate Tried(s: Store, k: nat, uploads: bool, o: Outside)
    requires k < |s.entries|
    decreases k, 1
  {
    IsFirst(s, k) && StillClean(s, k, k, uploads, o)
  }

  predicate Goes(s: Store, k: nat, uploads: bool, o: Outside)
    requires k < |s.entries|
  {
    Tried(s, k, uploads, o) && Deletable(s, s.entries[k], o)
  }

  /** The first `k` entries less those that go. */
  function Spares(s: Store, k: nat, uploads: bool, o: Outside): seq<ManifestEntry>
    requires k <= |s.entries|
  {
    if k == 0 then []
    else Spares(s, k - 1, uploads, o) + (if Goes(s, k - 1, uploads, o) then [] else [s.entries[k - 1]])
  }

  /** A removal counts when the manifest could be saved after it. */
  function CountRemoved(s: Store, k: nat, uploads: bool, o: Outside): nat
    requires k <= |s.entries|
  {
    if k == 0 then 0
    else
      var left := Spares(s, k - 1, uploads, o) + s.entries[k..];
      CountRemoved(s, k - 1, uploads, o) + (if Goes(s, k - 1, uploads, o) && o.saves(s.dir, left) then 1 else 0)
  }

  /** The store once the first `k` recordings have been considered, whatever room there is. */
  function After(s: Store, k: nat, uploads: bool, o: Outside): Pruned
    requires k <= |s.entries|
  {
    if k == 0 then Pruned(s, 0)
    else
      var before := After(s, k - 1, uploads, o);
      var one := PruneOne(before.store, s.entries[k - 1].name, uploads, o);
      Pruned(one.store, before.removed + one.removed)
  }

  // Removing files.

  lemma {:induction false} RemovingTwice(files: Files, paths: seq<Path>, stuck: set<Path>)
    requires !RemoveFiles(files, paths, stuck).complete
    ensures var r := RemoveFiles(files, paths, stuck); RemoveFiles(r.files, paths, stuck) == r
  {
    if !(paths[0] in files && paths[0] in stuck) {
      RemovingTwice(files - {paths[0]}, paths[1..], stuck);
      var r := RemoveFiles(files - {paths[0]}, paths[1..], stuck);
      assert r.files - {paths[0]} == r.files;
    }
  }

  lemma {:induction false} StaysBlocked(files: Files, left: Files, paths: seq<Path>, stuck: set<Path>)
    requires RemoveFiles(files, paths, stuck) == Removal(files, false)
    requires left.Keys <= files.Keys && forall p :: p in files && p in stuck ==> p in left
    ensures RemoveFiles(left, paths, stuck) == Removal(left, false)
  {
    if !(paths[0] in files && paths[0] in stuck) {
      assert files - {paths[0]} == files;
      assert left - {paths[0]} == left;
      StaysBlocked(files, left, paths[1..], stuck);
    }
  }

  /** A file goes exactly if neither it nor one before it is stuck. */
  lemma {:induction false} RemovedExactly(files: Files, paths: seq<Path>, stuck: set<Path>, i: nat)
    requires i < |paths| && paths[i] in files && paths[i] !in paths[..i]
    ensures paths[i] !in RemoveFiles(files, paths, stuck).files
            <==> forall p :: p in paths[..i + 1] && p in files ==> p !in stuck
  {
    assert paths[..i + 1] == [paths[0]] + paths[1..][..i];
    if i > 0 && !(paths[0] in files && paths[0] in stuck) {
      assert paths[..i] == [paths[0]] + paths[1..][..i - 1];
      RemovedExactly(files - {paths[0]}, paths[1..], stuck, i - 1);
    }
  }

  lemma {:induction false} StuckFilesStay(files: Files, paths: seq<Path>, stuck: set<Path>)
    ensures forall p :: p in files && p in stuck ==> p in RemoveFiles(files, paths, stuck).files
  {
    if paths != [] && !(paths[0] in files && paths[0] in stuck) {
      StuckFilesStay(files - {paths[0]}, paths[1..], stuck);
    }
  }

  /** `t` is `s` with files removed, none of them stuck. */
  ghost predicate Shrunk(s: Store, t: Store, o: Outside) {
    && SameLive(s, t)
    && (forall p :: p in t.files ==> p in s.files && t.files[p] == s.files[p])
    && (forall p :: p in s.files && p in o.stuck ==> p in t.files)
  }

  // Considering one recording.

  /** An attempt that fails leaves the entry; one that succeeds drops it. */
  lemma AttemptEffect(s: Store, i: nat, uploads: bool, o: Outside)
    requires i < |s.entries| && FindEntry(s.entries, s.entries[i].name) == Some(i)
    requires EntryVerdict(s, s.entries[i], uploads, o) == Clean
    ensures var e := s.entries[i];
            var removal := RemoveFiles(s.files, EntryPaths(s.dir, e), o.stuck);
            var r := PruneOne(s, e.name, uploads, o);
            && r.store.files == removal.files && (removal.complete <==> Deletable(s, e, o))
            && if removal.complete then
                 && r.store.entries == Without(s.entries, i)
                 && r.removed == (if o.saves(s.dir, Without(s.entries, i)) then 1 else 0)
               else r == Pruned(s.(files := removal.files), 0)
  {
    hide FileName, EntryVerdict, RemoveFiles;
    NotCurrent(s, s.entries[i], uploads, o);
  }

  lemma PruneOneShrinks(s: Store, name: string, uploads: bool, o: Outside)
    ensures Shrunk(s, PruneOne(s, name, uploads, o).store, o)
  {
    hide FileName, EntryVerdict, KeepsListed, Captures, RemoveFiles, EntryPaths;
    PruneOneEffect(s, name, uploads, o);
    if i :| FindEntry(s.entries, name) == Some(i) && EntryVerdict(s, s.entries[i], uploads, o) == Clean {
      StuckFilesStay(s.files, EntryPaths(s.dir, s.entries[i]), o.stuck);
      hide PruneOne;
      AttemptEffect(s, i, uploads, o);
    }
  }

  /** Considering a name does nothing. */
  ghost predicate Settled(s: Store, name: string, uploads: bool, o: Outside) {
    PruneOne(s, name, uploads, o) == Pruned(s, 0)
  }

  lemma NoReportNoVerdict(s: Store, e: ManifestEntry, uploads: bool, o: Outside)
    requires PathOf(s.dir, e, Analysis) !in s.files
    ensures EntryVerdict(s, e, uploads, o) == Unknown
  {
  }

  /** A name considered once need never be considered again, even if another recording has it too:
      they share the report, which went with the first. */
  lemma ConsideringTwice(s: Store, name: string, uploads: bool, o: Outside)
    ensures Settled(PruneOne(s, name, uploads, o).store, name, uploads, o)
  {
    hide EntryVerdict, RemoveFiles, DropEntry, SaveManifest;
    var t := PruneOne(s, name, uploads, o).store;
    if i :| FindEntry(s.entries, name) == Some(i) && EntryVerdict(s, s.entries[i], uploads, o) == Clean {
      var e := s.entries[i];
      AttemptEffect(s, i, uploads, o);
      var removal := RemoveFiles(s.files, EntryPaths(s.dir, e), o.stuck);
      if removal.complete {
        assert PathOf(s.dir, e, Analysis) == EntryPaths(s.dir, e)[1];
        PruneOneShrinks(s, name, uploads, o);
        if j :| FindEntry(t.entries, name) == Some(j) {
          NoReportNoVerdict(t, t.entries[j], uploads, o);
        }
      } else {
        RemovingTwice(s.files, EntryPaths(s.dir, e), o.stuck);
      }
    }
  }

  lemma FindInRest(entries: seq<ManifestEntry>, i: nat, name: string)
    requires i < |entries| && entries[i].name != name
    ensures match FindEntry(entries, name)
            case None => FindEntry(Without(entries, i), name).None?
            case Some(j) =>
              FindEntry(Without(entries, i), name).Some?
              && Without(entries, i)[FindEntry(Without(entries, i), name).value] == entries[j]
  {
    var rest := Without(entries, i);
    match FindEntry(entries, name)
    case None =>
    case Some(j) => assert rest[if j < i then j else j - 1] == entries[j];
  }

  /** One consideration drops the entry found, or none. */
  lemma EntriesAfterOne(s: Store, name: string, uploads: bool, o: Outside)
    ensures var t := PruneOne(s, name, uploads, o).store;
            || t.entries == s.entries
            || exists i :: 0 <= i < |s.entries| && s.entries[i].name == name && t.entries == Without(s.entries, i)
  {
    hide EntryVerdict, EntryPaths, RemoveFiles, Without;
    if i :| FindEntry(s.entries, name) == Some(i) && EntryVerdict(s, s.entries[i], uploads, o) == Clean {
      AttemptEffect(s, i, uploads, o);
    }
  }

  lemma FindAfterOne(s: Store, name: string, other: string, uploads: bool, o: Outside)
    requires name != other
    ensures var t := PruneOne(s, other, uploads, o).store;
            match FindEntry(s.entries, name)
            case None => FindEntry(t.entries, name).None?
            case Some(i) =>
              match FindEntry(t.entries, name) case None => false case Some(j) => t.entries[j] == s.entries[i]
  {
    EntriesAfterOne(s, other, uploads, o);
    hide PruneOne, Without;
    var t := PruneOne(s, other, uploads, o).store;
    if i :| 0 <= i < |s.entries| && s.entries[i].name == other && t.entries == Without(s.entries, i) {
      FindInRest(s.entries, i, name);
    }
  }

  lemma SettledMeans(s: Store, i: nat, uploads: bool, o: Outside)
    requires i < |s.entries| && FindEntry(s.entries, s.entries[i].name) == Some(i)
    ensures Settled(s, s.entries[i].name, uploads, o)
            <==> EntryVerdict(s, s.entries[i], uploads, o) == Clean ==>
                   RemoveFiles(s.files, EntryPaths(s.dir, s.entries[i]), o.stuck) == Removal(s.files, false)
  {
    hide EntryVerdict, EntryPaths, RemoveFiles;
    if EntryVerdict(s, s.entries[i], uploads, o) == Clean {
      AttemptEffect(s, i, uploads, o);
      hide PruneOne;
    }
  }

  /** What is settled stays so while other recordings are considered. */
  lemma SettledStays(s: Store, name: string, other: string, uploads: bool, o: Outside)
    requires Settled(s, name, uploads, o)
    ensures Settled(PruneOne(s, other, uploads, o).store, name, uploads, o)
  {
    var t := PruneOne(s, other, uploads, o).store;
    if other != name {
      FindAfterOne(s, name, other, uploads, o);
      PruneOneShrinks(s, other, uploads, o);
      NoSuchName(t, name, uploads, o);
      hide *;
      hide Shrunk;
      if i :| FindEntry(s.entries, name) == Some(i) {
        var j :| FindEntry(t.entries, name) == Some(j);
        SettledMeans(s, i, uploads, o);
        SettledMeans(t, j, uploads, o);
        SettledWhileShrinking(s, t, s.entries[i], uploads, o);
      }
    }
  }

  lemma NoSuchName(s: Store, name: string, uploads: bool, o: Outside)
    ensures FindEntry(s.entries, name).None? ==> Settled(s, name, uploads, o)
  {
  }

  lemma SettledWhileShrinking(s: Store, t: Store, e: ManifestEntry, uploads: bool, o: Outside)
    requires Shrunk(s, t, o) && e in s.entries
    requires EntryVerdict(s, e, uploads, o) == Clean ==>
               RemoveFiles(s.files, EntryPaths(s.dir, e), o.stuck) == Removal(s.files, false)
    ensures EntryVerdict(t, e, uploads, o) == Clean ==>
              RemoveFiles(t.files, EntryPaths(t.dir, e), o.stuck) == Removal(t.files, false)
  {
    hide EntryVerdict, EntryPaths, RemoveFiles;
    if EntryVerdict(t, e, uploads, o) == Clean {
      CleanBefore(s, t, e, uploads, o);
      StaysBlocked(s.files, t.files, EntryPaths(s.dir, e), o.stuck);
    }
  }

  // Considering all of them.

  lemma ShrunkTwice(s: Store, t: Store, u: Store, o: Outside)
    requires Shrunk(s, t, o) && Shrunk(t, u, o)
    ensures Shrunk(s, u, o)
  {
  }

  /** An attempt takes another recording's report exactly if that is called like its position file. */
  lemma ReportTaken(s: Store, t: Store, e: ManifestEntry, other: ManifestEntry, uploads: bool, o: Outside)
    requires Shrunk(s, t, o) && e.name != other.name && PathOf(s.dir, other, Analysis) in t.files
    ensures PathOf(s.dir, other, Analysis) !in RemoveFiles(t.files, EntryPaths(t.dir, e), o.stuck).files
            <==> TakesReport(s, e, other, o)
  {
    var report, paths := PathOf(s.dir, other, Analysis), EntryPaths(s.dir, e);
    NamedLikeGps(s.dir, e, other);
    hide FileName;
    var removal := RemoveFiles(t.files, paths, o.stuck);
    hide RemoveFiles;
    if other.name == e.name + "-gps" {
      assert report == paths[2] && paths[2] !in paths[..2];
      hide EntryPaths;
      RemovedExactly(t.files, paths, o.stuck, 2);
    }
  }

  lemma NamedLikeGps(dir: string, e: ManifestEntry, other: ManifestEntry)
    requires e.name != other.name
    ensures var report, paths := PathOf(dir, other, Analysis), EntryPaths(dir, e);
            && (report in paths <==> other.name == e.name + "-gps")
            && (other.name == e.name + "-gps" ==> report == paths[2] && paths[2] !in paths[..2])
  {
    LastCharacter(Qmdl, e.name, e.compressed);
    LastCharacter(Meta, e.name, e.compressed);
    LastCharacter(Analysis, other.name, other.compressed);
    var f := FileName(Analysis, other.name, other.compressed);
    assert f == other.name + ".ndjson";
    assert FileName(Gps, e.name, e.compressed) == e.name + "-gps" + ".ndjson";
    if f == FileName(Gps, e.name, e.compressed) {
      SuffixDetermines(other.name, e.name + "-gps", ".ndjson");
    }
    if f == FileName(Analysis, e.name, e.compressed) {
      SuffixDetermines(other.name, e.name, ".ndjson");
    }
    assert f[|f| - 5] == 'd';
  }

  /** `t` is what `s` becomes once its first `k` recordings have been considered. */
  ghost predicate Considered(s: Store, t: Store, k: nat, uploads: bool, o: Outside)
    requires k <= |s.entries|
  {
    && t.entries == Spares(s, k, uploads, o) + s.entries[k..]
    && Shrunk(s, t, o)
    && (forall j :: 0 <= j < k ==> Settled(t, s.entries[j].name, uploads, o))
    && (forall j :: k <= j < |s.entries| && IsFirst(s, j) ==>
          (EntryVerdict(t, s.entries[j], uploads, o) == Clean <==> StillClean(s, j, k, uploads, o)))
  }

  lemma {:induction false} SparesComeBefore(s: Store, k: nat, uploads: bool, o: Outside)
    requires k <= |s.entries|
    ensures forall e :: e in Spares(s, k, uploads, o) ==> e in s.entries[..k]
  {
    hide Goes;
    if k > 0 {
      SparesComeBefore(s, k - 1, uploads, o);
      assert s.entries[..k] == s.entries[..k - 1] + [s.entries[k - 1]];
    }
  }

  lemma FindBehind(before: seq<ManifestEntry>, all: seq<ManifestEntry>, k: nat)
    requires k < |all| && FindEntry(all, all[k].name) == Some(k)
    requires forall e :: e in before ==> e in all[..k]
    ensures FindEntry(before + all[k..], all[k].name) == Some(|before|)
  {
    var t := before + all[k..];
    assert t[|before|] == all[k];
    forall j | 0 <= j < |before| ensures t[j].name != all[k].name {
      assert t[j] in all[..k];
    }
  }

  lemma DropMiddle(before: seq<ManifestEntry>, all: seq<ManifestEntry>, k: nat)
    requires k < |all|
    ensures var t := before + all[k..];
            && |before| < |t| && t[|before|] == all[k]
            && Without(t, |before|) == before + all[k + 1..]
            && t == before + [all[k]] + all[k + 1..]
  {
  }

  /** The turn of a recording: tried exactly if it is first of its name and still reads clean. */
  lemma Turn(s: Store, t: Store, k: nat, uploads: bool, o: Outside)
    requires k < |s.entries| && Considered(s, t, k, uploads, o)
    ensures var e := s.entries[k];
            var r := PruneOne(t, e.name, uploads, o);
            && r.store.entries == Spares(s, k + 1, uploads, o) + s.entries[k + 1..]
            && r.removed == CountRemoved(s, k + 1, uploads, o) - CountRemoved(s, k, uploads, o)
            && if Tried(s, k, uploads, o) then
                 r.store.files == RemoveFiles(t.files, EntryPaths(s.dir, e), o.stuck).files
               else r.store == t
  {
    var e, spares := s.entries[k], Spares(s, k, uploads, o);
    assert t.entries == spares + s.entries[k..] && Shrunk(s, t, o);
    if IsFirst(s, k) && EntryVerdict(t, e, uploads, o) == Clean {
      TryingEffect(s, t, k, uploads, o);
    } else {
      TurnWithoutTry(s, t, k, uploads, o);
    }
    AtTurn(s, t, k, uploads, o);
    NextSpares(s, k, uploads, o);
    hide *;
    DropMiddle(spares, s.entries, k);
  }

  lemma AtTurn(s: Store, t: Store, k: nat, uploads: bool, o: Outside)
    requires k < |s.entries| && Considered(s, t, k, uploads, o)
    ensures t.entries == Spares(s, k, uploads, o) + s.entries[k..] && Shrunk(s, t, o)
    ensures Tried(s, k, uploads, o) <==> IsFirst(s, k) && EntryVerdict(t, s.entries[k], uploads, o) == Clean
  {
    hide EntryVerdict, StillClean, Shrunk, Settled, IsFirst, Spares;
  }

  lemma NextSpares(s: Store, k: nat, uploads: bool, o: Outside)
    requires k < |s.entries|
    ensures var e := s.entries[k];
            var goes, spares := Tried(s, k, uploads, o) && Deletable(s, e, o), Spares(s, k, uploads, o);
            && Spares(s, k + 1, uploads, o) == (if goes then spares else spares + [e])
            && CountRemoved(s, k + 1, uploads, o)
               == CountRemoved(s, k, uploads, o)
                 + (if goes && o.saves(s.dir, spares + s.entries[k + 1..]) then 1 else 0)
  {
    hide Tried, Deletable;
  }

  lemma TryingEffect(s: Store, t: Store, k: nat, uploads: bool, o: Outside)
    requires k < |s.entries| && Shrunk(s, t, o) && t.entries == Spares(s, k, uploads, o) + s.entries[k..]
    requires IsFirst(s, k) && EntryVerdict(t, s.entries[k], uploads, o) == Clean
    ensures var e := s.entries[k];
            var r, left := PruneOne(t, e.name, uploads, o), Spares(s, k, uploads, o) + s.entries[k + 1..];
            && r.store.files == RemoveFiles(t.files, EntryPaths(s.dir, e), o.stuck).files
            && r.store.entries == (if Deletable(s, e, o) then left else t.entries)
            && r.removed == (if Deletable(s, e, o) && o.saves(s.dir, left) then 1 else 0)
  {
    var e, spares := s.entries[k], Spares(s, k, uploads, o);
    SparesComeBefore(s, k, uploads, o);
    DropMiddle(spares, s.entries, k);
    FindBehind(spares, s.entries, k);
    SameDeletable(s, t, e, o);
    hide *;
    hide Shrunk;
    AttemptEffect(t, |spares|, uploads, o);
  }

  lemma TurnWithoutTry(s: Store, t: Store, k: nat, uploads: bool, o: Outside)
    requires k < |s.entries| && Considered(s, t, k, uploads, o)
    requires !(IsFirst(s, k) && EntryVerdict(t, s.entries[k], uploads, o) == Clean)
    ensures PruneOne(t, s.entries[k].name, uploads, o) == Pruned(t, 0)
  {
    var e, spares := s.entries[k], Spares(s, k, uploads, o);
    hide EntryVerdict, DeleteEntry, Spares, StillClean, Shrunk;
    if IsFirst(s, k) {
      SparesComeBefore(s, k, uploads, o);
      DropMiddle(spares, s.entries, k);
      FindBehind(spares, s.entries, k);
    } else {
      FirstMeans(s, k);
      assert Settled(t, e.name, uploads, o);
    }
  }

  lemma SameDeletable(s: Store, t: Store, e: ManifestEntry, o: Outside)
    requires Shrunk(s, t, o)
    ensures t.dir == s.dir && (Deletable(s, e, o) <==> Deletable(t, e, o))
  {
    hide EntryPaths;
  }

  /** How the verdict of a later recording changes in that turn. */
  lemma TurnVerdict(s: Store, t: Store, k: nat, j: nat, uploads: bool, o: Outside)
    requires k < j < |s.entries| && IsFirst(s, j) && Considered(s, t, k, uploads, o)
    ensures var u := PruneOne(t, s.entries[k].name, uploads, o).store;
            EntryVerdict(u, s.entries[j], uploads, o) == Clean <==> StillClean(s, j, k + 1, uploads, o)
  {
    hide EntryPaths, RemoveFiles, PruneOne, ReportVerdict, FileName, TakesReport, Tried;
    var u, e, other := PruneOne(t, s.entries[k].name, uploads, o).store, s.entries[k], s.entries[j];
    Turn(s, t, k, uploads, o);
    PruneOneShrinks(t, e.name, uploads, o);
    if Tried(s, k, uploads, o) && EntryVerdict(t, other, uploads, o) == Clean {
      ReportTaken(s, t, e, other, uploads, o);
    }
  }

  lemma ConsiderNext(s: Store, t: Store, k: nat, uploads: bool, o: Outside)
    requires k < |s.entries| && Considered(s, t, k, uploads, o)
    ensures Considered(s, PruneOne(t, s.entries[k].name, uploads, o).store, k + 1, uploads, o)
  {
    hide PruneOne, Settled, EntryVerdict, StillClean, Shrunk, Spares, CountRemoved, Tried;
    var name := s.entries[k].name;
    var u := PruneOne(t, name, uploads, o).store;
    Turn(s, t, k, uploads, o);
    PruneOneShrinks(t, name, uploads, o);
    ShrunkTwice(s, t, u, o);
    forall j | 0 <= j < k + 1 ensures Settled(u, s.entries[j].name, uploads, o) {
      if j == k {
        ConsideringTwice(t, name, uploads, o);
      } else {
        SettledStays(t, s.entries[j].name, name, uploads, o);
      }
    }
    forall j | k + 1 <= j < |s.entries| && IsFirst(s, j)
      ensures EntryVerdict(u, s.entries[j], uploads, o) == Clean <==> StillClean(s, j, k + 1, uploads, o)
    {
      TurnVerdict(s, t, k, j, uploads, o);
    }
  }

  /** After any number of turns: what is left, and how many removals counted. */
  lemma {:induction false} AllConsidered(s: Store, k: nat, uploads: bool, o: Outside)
    requires k <= |s.entries|
    ensures Considered(s, After(s, k, uploads, o).store, k, uploads, o)
    ensures After(s, k, uploads, o).removed == CountRemoved(s, k, uploads, o)
  {
    hide PruneOne, Considered, CountRemoved;
    if k > 0 {
      var t := After(s, k - 1, uploads, o).store;
      AllConsidered(s, k - 1, uploads, o);
      ConsiderNext(s, t, k - 1, uploads, o);
      Turn(s, t, k - 1, uploads, o);
    } else {
      NothingConsidered(s, uploads, o);
    }
  }

  lemma NothingConsidered(s: Store, uploads: bool, o: Outside)
    ensures Considered(s, s, 0, uploads, o) && CountRemoved(s, 0, uploads, o) == 0
  {
    hide EntryVerdict;
  }

  // Where it stops.

  /** How many recordings pruning considers: up to the first moment there is room. */
  ghost predicate StopsAt(s: Store, k: nat, target: nat, uploads: bool, o: Outside)
    requires k <= |s.entries|
  {
    && (k == |s.entries| || Roomy(After(s, k, uploads, o).store.files, target, o))
    && forall j :: 0 <= j < k ==> !Roomy(After(s, j, uploads, o).store.files, target, o)
  }

  lemma {:induction false} PruneStops(s: Store, i: nat, target: nat, uploads: bool, o: Outside) returns (k: nat)
    requires i <= |s.entries|
    requires forall j :: 0 <= j < i ==> !Roomy(After(s, j, uploads, o).store.files, target, o)
    ensures i <= k <= |s.entries| && StopsAt(s, k, target, uploads, o)
    ensures var rest := PruneNames(After(s, i, uploads, o).store, EntryNames(s.entries)[i..], target, uploads, o);
            && rest.store == After(s, k, uploads, o).store
            && After(s, i, uploads, o).removed + rest.removed == After(s, k, uploads, o).removed
    decreases |s.entries| - i
  {
    hide PruneOne;
    var names := EntryNames(s.entries)[i..];
    if i == |s.entries| || Roomy(After(s, i, uploads, o).store.files, target, o) {
      k := i;
    } else {
      assert names[1..] == EntryNames(s.entries)[i + 1..];
      k := PruneStops(s, i + 1, target, uploads, o);
    }
  }

  /** The turns among the first `k` whose removal could be saved. */
  ghost function Counted(s: Store, k: nat, uploads: bool, o: Outside): set<nat>
    requires k <= |s.entries|
  {
    set j: nat | j < k && Goes(s, j, uploads, o) && o.saves(s.dir, Spares(s, j, uploads, o) + s.entries[j + 1..])
  }

  lemma CountedOneMore(s: Store, k: nat, uploads: bool, o: Outside)
    requires 0 < k <= |s.entries|
    ensures var j := k - 1;
            var counts := Goes(s, j, uploads, o) && o.saves(s.dir, Spares(s, j, uploads, o) + s.entries[k..]);
            Counted(s, k, uploads, o) == Counted(s, j, uploads, o) + (if counts then {j} else {})
    ensures k - 1 !in Counted(s, k - 1, uploads, o)
  {
    hide Goes, Spares;
  }

  /** A removal counts exactly when the manifest, less all that went so far, could be saved. */
  lemma {:induction false} VictimsAreCounted(s: Store, k: nat, uploads: bool, o: Outside)
    requires k <= |s.entries|
    ensures After(s, k, uploads, o).removed == |Counted(s, k, uploads, o)|
  {
    hide After, Goes, Spares;
    AllConsidered(s, k, uploads, o);
    if k > 0 {
      VictimsAreCounted(s, k - 1, uploads, o);
      AllConsidered(s, k - 1, uploads, o);
      CountedOneMore(s, k, uploads, o);
      hide Counted;
    }
  }

  // When that is every victim.

  /** The first `k` entries less the victims among them. */
  function WithoutVictims(s: Store, k: nat, uploads: bool, o: Outside): seq<ManifestEntry>
    requires k <= |s.entries|
  {
    if k == 0 then []
    else
      var e := s.entries[k - 1];
      WithoutVictims(s, k - 1, uploads, o) + (if Victim(s, e, uploads, o) then [] else [e])
  }

  /** Among the first `k`, no victim comes after one of its name, nor after one called like it less
      "-gps" whose deletion is tried and takes its report. */
  ghost predicate Undisturbed(s: Store, k: nat, uploads: bool, o: Outside)
    requires k <= |s.entries|
  {
    && (forall i, j :: 0 <= i < j < k && Victim(s, s.entries[j], uploads, o) ==> s.entries[i].name != s.entries[j].name)
    && (forall i, j :: 0 <= i < j < k && Victim(s, s.entries[j], uploads, o) && Tried(s, i, uploads, o) ==>
          !TakesReport(s, s.entries[i], s.entries[j], o))
  }

  lemma GoingIsVictim(s: Store, k: nat, uploads: bool, o: Outside)
    requires k < |s.entries|
    ensures Goes(s, k, uploads, o) <==> Victim(s, s.entries[k], uploads, o) && Tried(s, k, uploads, o)
  {
    hide EntryVerdict, Deletable, TakesReport;
    if Tried(s, k, uploads, o) {
      assert StillClean(s, k, k, uploads, o);
      assert EntryVerdict(s, s.entries[k], uploads, o) == Clean;
    }
  }

  /** The first of its name, by comparing names. */
  lemma FirstMeans(s: Store, k: nat)
    requires k < |s.entries|
    ensures IsFirst(s, k) <==> forall i :: 0 <= i < k ==> s.entries[i].name != s.entries[k].name
  {
  }

  lemma VictimGoesExactly(s: Store, j: nat, uploads: bool, o: Outside)
    requires j < |s.entries|
    ensures Victim(s, s.entries[j], uploads, o) ==>
              (Goes(s, j, uploads, o) <==>
                && (forall i :: 0 <= i < j ==> s.entries[i].name != s.entries[j].name)
                && (forall i :: 0 <= i < j && Tried(s, i, uploads, o) ==>
                      !TakesReport(s, s.entries[i], s.entries[j], o)))
  {
    hide EntryVerdict, Deletable, TakesReport, IsFirst;
    FirstMeans(s, j);
    GoingIsVictim(s, j, uploads, o);
  }

  /** Dropping the last entry from both, from neither, or from the first only. */
  lemma SameJoin(a: seq<ManifestEntry>, b: seq<ManifestEntry>, e: ManifestEntry, victim: bool, goes: bool)
    requires |a| <= |b| && (goes ==> victim)
    ensures var a', b' := a + (if victim then [] else [e]), b + (if goes then [] else [e]);
            |a'| <= |b'| && (a' == b' <==> a == b && (victim ==> goes))
  {
    var a', b' := a + (if victim then [] else [e]), b + (if goes then [] else [e]);
    if a' == b' {
      assert a == a'[..|a|] && b == b'[..|b|];
    }
  }

  lemma BothOneMore(s: Store, k: nat, uploads: bool, o: Outside)
    requires 0 < k <= |s.entries|
    ensures var e := s.entries[k - 1];
            && WithoutVictims(s, k, uploads, o)
               == WithoutVictims(s, k - 1, uploads, o) + (if Victim(s, e, uploads, o) then [] else [e])
            && Spares(s, k, uploads, o)
               == Spares(s, k - 1, uploads, o) + (if Goes(s, k - 1, uploads, o) then [] else [e])
  {
    hide Victim, Goes;
  }

  /** Every victim among the first `k` goes. */
  ghost predicate EachGoes(s: Store, k: nat, uploads: bool, o: Outside)
    requires k <= |s.entries|
  {
    forall j :: 0 <= j < k && Victim(s, s.entries[j], uploads, o) ==> Goes(s, j, uploads, o)
  }

  lemma EachGoesOneMore(s: Store, k: nat, uploads: bool, o: Outside)
    requires k < |s.entries|
    ensures EachGoes(s, 0, uploads, o)
    ensures EachGoes(s, k + 1, uploads, o)
            <==> EachGoes(s, k, uploads, o) && (Victim(s, s.entries[k], uploads, o) ==> Goes(s, k, uploads, o))
  {
    hide Victim, Goes;
  }

  /** No victim but those that go: what is left is the same either way exactly then. */
  ghost predicate SameUpTo(s: Store, k: nat, uploads: bool, o: Outside)
    requires k <= |s.entries|
  {
    var a, b := WithoutVictims(s, k, uploads, o), Spares(s, k, uploads, o);
    |a| <= |b| && (a == b <==> EachGoes(s, k, uploads, o))
  }

  lemma SameOneMore(s: Store, k: nat, uploads: bool, o: Outside)
    requires k < |s.entries| && SameUpTo(s, k, uploads, o)
    ensures SameUpTo(s, k + 1, uploads, o)
  {
    var e := s.entries[k];
    GoingIsVictim(s, k, uploads, o);
    BothOneMore(s, k + 1, uploads, o);
    EachGoesOneMore(s, k, uploads, o);
    var victim, goes := Victim(s, e, uploads, o), Goes(s, k, uploads, o);
    SameJoin(WithoutVictims(s, k, uploads, o), Spares(s, k, uploads, o), e, victim, goes);
    hide EachGoes, WithoutVictims, Spares, Victim, Goes, Tried;
  }

  lemma {:induction false} SpareLengths(s: Store, k: nat, uploads: bool, o: Outside)
    requires k <= |s.entries|
    ensures SameUpTo(s, k, uploads, o)
  {
    hide Victim, Goes;
    if k > 0 {
      SpareLengths(s, k - 1, uploads, o);
      SameOneMore(s, k - 1, uploads, o);
    }
  }

  /** Every victim considered goes, and nothing else, exactly if they are undisturbed. */
  lemma VictimsGoExactly(s: Store, k: nat, uploads: bool, o: Outside)
    requires k <= |s.entries|
    ensures After(s, k, uploads, o).store.entries == WithoutVictims(s, k, uploads, o) + s.entries[k..]
            <==> Undisturbed(s, k, uploads, o)
  {
    AllConsidered(s, k, uploads, o);
    forall j | 0 <= j < k
      ensures Victim(s, s.entries[j], uploads, o) ==>
                (Goes(s, j, uploads, o) <==>
                  && (forall i :: 0 <= i < j ==> s.entries[i].name != s.entries[j].name)
                  && (forall i :: 0 <= i < j && Tried(s, i, uploads, o) ==>
                        !TakesReport(s, s.entries[i], s.entries[j], o)))
    {
      VictimGoesExactly(s, j, uploads, o);
    }
    hide Victim, Tried, Goes, TakesReport, After, WithoutVictims, Spares, Shrunk, Settled, StillClean, EntryVerdict;
    SpareLengths(s, k, uploads, o);
    var a, b, rest := WithoutVictims(s, k, uploads, o), Spares(s, k, uploads, o), s.entries[k..];
    assert a + rest == b + rest <==> a == b by {
      if a + rest == b + rest {
        assert a == (a + rest)[..|a|] && b == (b + rest)[..|b|];
      }
    }
  }

  /** Whatever the manifest, pruning leaves it less those that go among its first `k` entries, where
      `k` is the least number after which there is room, or all of them. The rest keep their order,
      the current recording stays current, and the count is of the removals that were saved. Those
      that go are all the victims among the `k` exactly if these are undisturbed. */
  lemma PruneTakesTheShortestPrefix(s: Store, target: nat, uploads: bool, o: Outside) returns (k: nat)
    ensures k <= |s.entries| && StopsAt(s, k, target, uploads, o)
    ensures var r := Prune(s, target, uploads, o);
            && r.store.entries == Spares(s, k, uploads, o) + s.entries[k..]
            && SameLive(s, r.store)
            && r.removed == CountRemoved(s, k, uploads, o)
            && (r.store.entries == WithoutVictims(s, k, uploads, o) + s.entries[k..] <==> Undisturbed(s, k, uploads, o))
  {
    hide PruneOne, PruneNames, Spares, CountRemoved, StillClean, Settled, WithoutVictims, Undisturbed;
    k := PruneStops(s, 0, target, uploads, o);
    AllConsidered(s, k, uploads, o);
    VictimsGoExactly(s, k, uploads, o);
    assert EntryNames(s.entries)[0..] == EntryNames(s.entries);
  }

  /** With names distinct, and none another's followed by "-gps", no victim is disturbed. */
  lemma DistinctNamesAreUndisturbed(s: Store, k: nat, uploads: bool, o: Outside)
    requires k <= |s.entries|
    requires forall i, j :: 0 <= i < j < k ==> s.entries[i].name != s.entries[j].name
    requires forall i, j :: 0 <= i < j < k ==> s.entries[j].name != s.entries[i].name + "-gps"
    ensures Undisturbed(s, k, uploads, o)
  {
    hide Victim, Tried, EntryPaths;
  }

  lemma {:induction false} SparesKeep(s: Store, j: nat, k: nat, uploads: bool, o: Outside)
    requires j < k <= |s.entries| && !Goes(s, j, uploads, o)
    ensures s.entries[j] in Spares(s, k, uploads, o)
  {
    hide Goes;
    if j < k - 1 {
      SparesKeep(s, j, k - 1, uploads, o);
    }
  }

  lemma NamesakeStays(s: Store, i: nat, j: nat, uploads: bool, o: Outside)
    requires i < j < |s.entries|
    requires var e, other := s.entries[i], s.entries[j];
             other.name == e.name || (Goes(s, i, uploads, o) && other.name == e.name + "-gps")
    ensures !Goes(s, j, uploads, o)
  {
    DeletingTakesReport(s, s.entries[i], s.entries[j], o);
    GoingIsVictim(s, i, uploads, o);
    GoingIsVictim(s, j, uploads, o);
    VictimGoesExactly(s, j, uploads, o);
    hide Goes, Tried, EntryVerdict, EntryPaths, TakesReport, Deletable;
  }

  lemma DeletingTakesReport(s: Store, e: ManifestEntry, other: ManifestEntry, o: Outside)
    ensures Deletable(s, e, o) && other.name == e.name + "-gps" ==> TakesReport(s, e, other, o)
  {
    hide EntryPaths;
  }

  /** The recordings that disturbing costs: one behind another of its name, and one whose report
      goes with another, survive the whole of a pruning however little room there is. */
  lemma NamesakesSurvive(s: Store, i: nat, j: nat, target: nat, uploads: bool, o: Outside)
    requires i < j < |s.entries|
    requires var e, other := s.entries[i], s.entries[j];
             other.name == e.name || (Goes(s, i, uploads, o) && other.name == e.name + "-gps")
    ensures s.entries[j] in Prune(s, target, uploads, o).store.entries
  {
    NamesakeStays(s, i, j, uploads, o);
    hide *;
    var k := PruneTakesTheShortestPrefix(s, target, uploads, o);
    if j < k {
      SparesKeep(s, j, k, uploads, o);
    } else {
      assert s.entries[k..][j - k] == s.entries[j];
    }
  }

  /** Recordings that are being made, labelled or awaiting upload, and ones whose report is
      missing, empty, unreadable or warns, are nobody's victims. */
  lemma NeverVictims(s: Store, e: ManifestEntry, uploads: bool, o: Outside)
    ensures var report := PathOf(s.dir, e, Analysis);
            Victim(s, e, uploads, o) ==>
              && !IsCurrent(s, e.name) && e.displayName.None? && e.notes.None?
              && (uploads ==> e.uploadTime.Some?)
              && report in s.files
              && (forall i :: 0 <= i < |s.files[report]| ==>
                    s.files[report][i].Text? && ClassifyLine(s.files[report][i].line, o.json) == NoWarning)
              && (exists i :: 0 <= i < |s.files[report]| && Says(s.files[report][i]))
  {
    hide FileName, EntryPaths, ClassifyLine;
  }
}
