/** What each store operation does to the captures on disk, to the entry being
    recorded and to what the manifests list. */
module StoreLemmas {
  import opened Options
  import opened Names
  import opened StoreModel

  /** The capture files among `files`. */
  function Captures(files: Files): Files {
    map p | p in files && IsCapture(p.file) :: files[p]
  }

  /** Some entry of the manifest is the recording held in `p`. */
  ghost predicate Lists(entries: seq<ManifestEntry>, dir: string, p: Path) {
    exists i :: 0 <= i < |entries| && CapturePath(dir, entries[i]) == p
  }

  ghost predicate SavedLists(s: Store, p: Path) {
    s.dir in s.manifests && Lists(s.manifests[s.dir], s.dir, p)
  }

  /** Captures that still exist and were listed in memory are still listed there; if the
      saved manifest listed them too, it still does. */
  ghost predicate KeepsListed(s: Store, s': Store) {
    && s'.dir == s.dir
    && (forall p :: p in Captures(s'.files) && Lists(s.entries, s.dir, p) ==>
          Lists(s'.entries, s.dir, p) && (SavedLists(s, p) ==> SavedLists(s', p)))
  }

  /** The same recording is current in both, wherever its entry now sits. */
  predicate SameLive(s: Store, s': Store) {
    && s.dir == s'.dir
    && s.current.Some? == s'.current.Some?
    && (s.current.Some? ==>
          var e, e' := s.entries[s.current.value], s'.entries[s'.current.value];
          e.name == e'.name && e.compressed == e'.compressed)
  }

  /** An operation that leaves every capture and the manifest's list of captures alone. */
  ghost predicate Harmless(s: Store, s': Store) {
    && s'.dir == s.dir
    && Captures(s'.files) == Captures(s.files)
    && |s'.entries| == |s.entries|
    && (forall i :: 0 <= i < |s.entries| ==> CapturePath(s.dir, s'.entries[i]) == CapturePath(s.dir, s.entries[i]))
    && (s'.manifests == s.manifests || s'.manifests == s.manifests[s.dir := s'.entries])
  }

  lemma HarmlessKeepsListed(s: Store, s': Store)
    requires Harmless(s, s')
    ensures KeepsListed(s, s')
  {
    forall p | Lists(s.entries, s.dir, p) ensures Lists(s'.entries, s.dir, p) {
      var i :| 0 <= i < |s.entries| && CapturePath(s.dir, s.entries[i]) == p;
      assert CapturePath(s.dir, s'.entries[i]) == p;
    }
  }

  lemma ListingComposes(s: Store, s1: Store, s2: Store)
    requires KeepsListed(s, s1) && KeepsListed(s1, s2)
    requires forall p :: p in Captures(s2.files) ==> p in Captures(s1.files)
    ensures KeepsListed(s, s2)
  {
    hide FileName, CapturePath, IsCapture, Lists;
  }

  lemma CapturesUnchanged(files: Files, p: Path, data: FileData)
    requires !IsCapture(p.file)
    ensures Captures(files[p := data]) == Captures(files)
  {
  }

  lemma CloseCurrentIsHarmless(s: Store, o: Outside)
    ensures Harmless(s, CloseCurrent(s, o).store)
    ensures CloseCurrent(s, o).store.current.None?
  {
    if s.current.Some? {
      var e := s.entries[s.current.value];
      CaptureFiles(Meta, e.name, e.compressed);
    }
  }

  /** Rewriting an entry without renaming it is harmless. */
  lemma ReplacingIsHarmless(s: Store, i: nat, e: ManifestEntry, o: Outside)
    requires i < |s.entries| && e.name == s.entries[i].name && e.compressed == s.entries[i].compressed
    ensures var s' := SaveManifest(ReplaceEntry(s, i, e), o).store; Harmless(s, s') && SameLive(s, s')
  {
    hide FileName, Captures;
  }

  lemma UpdatesAreHarmless(s: Store, size: nat, reason: string, o: Outside)
    ensures Harmless(s, UpdateCurrentSize(s, size, o).store) && SameLive(s, UpdateCurrentSize(s, size, o).store)
    ensures Harmless(s, SetStopReason(s, reason, o).store) && SameLive(s, SetStopReason(s, reason, o).store)
  {
    hide FileName, Captures, ReplaceEntry, SaveManifest;
    if s.current.Some? {
      var i := s.current.value;
      ReplacingIsHarmless(s, i, s.entries[i].(qmdlSize := size, lastMessageTime := Some(o.now)), o);
      ReplacingIsHarmless(s, i, s.entries[i].(stopReason := Some(reason)), o);
    }
  }

  lemma LabelsAreHarmless(s: Store, name: string, displayName: Option<string>, notes: Option<string>, o: Outside)
    ensures Harmless(s, Annotate(s, name, displayName, notes, o).store)
    ensures SameLive(s, Annotate(s, name, displayName, notes, o).store)
    ensures Harmless(s, MarkUploaded(s, name, o).store) && SameLive(s, MarkUploaded(s, name, o).store)
  {
    hide FileName, Captures, ReplaceEntry, SaveManifest;
    if i :| FindEntry(s.entries, name) == Some(i) {
      ReplacingIsHarmless(s, i, s.entries[i].(displayName := displayName, notes := notes), o);
      ReplacingIsHarmless(s, i, s.entries[i].(uploadTime := Some(o.now)), o);
    }
  }

  lemma OnlyItsOwnCapture(dir: string, e: ManifestEntry, p: Path)
    requires p in EntryPaths(dir, e) && IsCapture(p.file)
    ensures p == CapturePath(dir, e)
  {
    hide FileName, IsCapture;
    CaptureFiles(Analysis, e.name, e.compressed);
    CaptureFiles(Gps, e.name, e.compressed);
    CaptureFiles(Meta, e.name, e.compressed);
  }

  /** If no capture but `q` may have gone, the captures are the same, less perhaps `q`. */
  lemma AllButOne(files: Files, left: Files, q: Path)
    requires forall p :: p in left ==> p in files && left[p] == files[p]
    requires forall p :: p in Captures(files) && p != q ==> p in left
    ensures Captures(left) == Captures(files) || Captures(left) == Captures(files) - {q}
  {
    hide IsCapture;
    if q in left {
      assert Captures(left) == Captures(files);
    } else {
      assert Captures(left) == Captures(files) - {q};
    }
  }

  /** Removing an entry's files touches one capture at most: its own. */
  lemma RemovingAnEntry(files: Files, dir: string, e: ManifestEntry, stuck: set<Path>)
    ensures var r := RemoveFiles(files, EntryPaths(dir, e), stuck);
            && (Captures(r.files) == Captures(files) || Captures(r.files) == Captures(files) - {CapturePath(dir, e)})
            && (r.complete ==> CapturePath(dir, e) !in r.files)
  {
    var r := RemoveFiles(files, EntryPaths(dir, e), stuck);
    assert EntryPaths(dir, e)[0] == CapturePath(dir, e);
    hide FileName, IsCapture, EntryPaths, RemoveFiles, CapturePath;
    forall p | p in Captures(files) && p != CapturePath(dir, e) ensures p in r.files {
      if p in EntryPaths(dir, e) {
        OnlyItsOwnCapture(dir, e, p);
      }
    }
    AllButOne(files, r.files, CapturePath(dir, e));
  }

  /** Dropping an entry moves the current index along with the current recording. */
  lemma DropEntryEffect(s: Store, i: nat, o: Outside)
    requires i < |s.entries|
    ensures var s' := DropEntry(s, i, o);
            && s'.entries == Without(s.entries, i)
            && Captures(s'.files) == Captures(s.files)
            && (forall p :: p in s'.files <==> p in s.files)
            && s'.dir == s.dir && s'.manifests == s.manifests && s'.nextSequence == s.nextSequence
    ensures s.current != Some(i) ==> SameLive(s, DropEntry(s, i, o))
  {
    hide FileName, Captures, IsCapture;
    CloseCurrentIsHarmless(s, o);
  }

  /** Deleting by name: at most that recording's capture goes, it goes from disk before
      its entry goes from the manifest, and another recording stays current. */
  lemma DeleteEntryEffect(s: Store, name: string, o: Outside)
    ensures var s' := DeleteEntry(s, name, o).store;
            match FindEntry(s.entries, name)
            case None => s' == s
            case Some(i) =>
              && (Captures(s'.files) == Captures(s.files)
                  || Captures(s'.files) == Captures(s.files) - {CapturePath(s.dir, s.entries[i])})
              && (s'.entries == s.entries
                  || (s'.entries == Without(s.entries, i) && CapturePath(s.dir, s.entries[i]) !in s'.files))
              && (s'.manifests == s.manifests || s'.manifests == s.manifests[s.dir := s'.entries])
              && s'.nextSequence == s.nextSequence && s'.dir == s.dir
    ensures !IsCurrent(s, name) ==> SameLive(s, DeleteEntry(s, name, o).store)
  {
    hide CapturePath, PathOf, EntryPaths, Captures, DropEntry, Without;
    if i :| FindEntry(s.entries, name) == Some(i) {
      var removal := RemoveFiles(s.files, EntryPaths(s.dir, s.entries[i]), o.stuck);
      RemovingAnEntry(s.files, s.dir, s.entries[i], o.stuck);
      DropEntryEffect(s.(files := removal.files), i, o);
    }
  }

  lemma DeleteEntryKeepsListed(s: Store, name: string, o: Outside)
    ensures KeepsListed(s, DeleteEntry(s, name, o).store)
  {
    hide DeleteEntry, CapturePath, FileName, IsCapture;
    var s' := DeleteEntry(s, name, o).store;
    DeleteEntryEffect(s, name, o);
    if i :| FindEntry(s.entries, name) == Some(i) {
      forall p | p in Captures(s'.files) && Lists(s.entries, s.dir, p) ensures Lists(s'.entries, s.dir, p) {
        var j :| 0 <= j < |s.entries| && CapturePath(s.dir, s.entries[j]) == p;
        if s'.entries != s.entries {
          assert s'.entries[if j < i then j else j - 1] == s.entries[j];
        }
      }
    }
  }

  /** Sweeping loses no listed capture that survives, and removes only listed ones. */
  lemma {:induction false} SweepKeepsSurvivors(files: Files, dir: string, entries: seq<ManifestEntry>,
                                               stuck: set<Path>, p: Path)
    requires IsCapture(p.file)
    ensures var sweep := SweepEntries(files, dir, entries, stuck);
            && (p in sweep.files ==> p in files && sweep.files[p] == files[p])
            && (p in sweep.files && Lists(entries, dir, p) ==> Lists(sweep.kept, dir, p))
            && (p in files && p !in sweep.files ==> Lists(entries, dir, p))
  {
    hide FileName, IsCapture, EntryPaths, CapturePath;
    if entries != [] {
      var removal := RemoveFiles(files, EntryPaths(dir, entries[0]), stuck);
      RemovingAnEntry(files, dir, entries[0], stuck);
      var rest := SweepEntries(removal.files, dir, entries[1..], stuck);
      SweepKeepsSurvivors(removal.files, dir, entries[1..], stuck, p);
      assert p in files <==> p in Captures(files);
      assert p in removal.files <==> p in Captures(removal.files);
      SweepSplit(dir, entries, removal.complete, rest.kept, p);
    }
  }

  lemma SweepSplit(dir: string, entries: seq<ManifestEntry>, dropped: bool, rest: seq<ManifestEntry>, p: Path)
    requires entries != []
    ensures Lists(entries, dir, p) <==> CapturePath(dir, entries[0]) == p || Lists(entries[1..], dir, p)
    ensures !dropped && CapturePath(dir, entries[0]) == p ==> Lists([entries[0]] + rest, dir, p)
    ensures Lists(rest, dir, p) ==> Lists((if dropped then [] else [entries[0]]) + rest, dir, p)
  {
    hide FileName, CapturePath;
    if i :| 0 <= i < |entries| && CapturePath(dir, entries[i]) == p {
      if i > 0 {
        assert entries[1..][i - 1] == entries[i];
      }
    }
    if i :| 0 <= i < |entries[1..]| && CapturePath(dir, entries[1..][i]) == p {
      assert entries[i + 1] == entries[1..][i];
    }
    if !dropped {
      assert ([entries[0]] + rest)[0] == entries[0];
    }
    if i :| 0 <= i < |rest| && CapturePath(dir, rest[i]) == p {
      var all := (if dropped then [] else [entries[0]]) + rest;
      assert all[if dropped then i else i + 1] == rest[i];
    }
  }

  /** Deleting everything stops the current recording and loses no listed survivor. */
  lemma DeleteAllEffect(s: Store, o: Outside)
    ensures var s' := DeleteAllEntries(s, o).store;
            && s'.current.None? && s'.nextSequence == s.nextSequence
            && KeepsListed(s, s')
            && (forall p :: p in Captures(s'.files) ==> p in Captures(s.files) && s'.files[p] == s.files[p])
            && (forall p :: p in Captures(s.files) && p !in s'.files ==> Lists(s.entries, s.dir, p))
  {
    hide FileName, IsCapture, SweepEntries, CapturePath, CloseCurrent;
    var s1 := if s.current.Some? then CloseCurrent(s, o).store else s;
    CloseCurrentIsHarmless(s, o);
    CloseCurrentKeeps(s, o);
    var s' := DeleteAllEntries(s, o).store;
    forall p: Path | IsCapture(p.file)
      ensures p in s'.files ==> p in s.files && s'.files[p] == s.files[p]
      ensures p in s'.files && Lists(s.entries, s.dir, p) ==> Lists(s'.entries, s.dir, p)
      ensures p in s.files && p !in s'.files ==> Lists(s.entries, s.dir, p)
    {
      SweepKeepsSurvivors(s1.files, s1.dir, s1.entries, o.stuck, p);
      assert p in Captures(s1.files) <==> p in s1.files;
      assert p in Captures(s.files) <==> p in s.files;
    }
  }

  lemma CloseCurrentKeeps(s: Store, o: Outside)
    ensures var s' := CloseCurrent(s, o).store;
            && s'.entries == s.entries && s'.manifests == s.manifests
            && s'.nextSequence == s.nextSequence && s'.dir == s.dir && s'.files.Keys == s.files.Keys
  {
  }

  /** What claiming a name can lead to: nothing but used-up names; or one capture that did not
      exist, under one of the tried names, recorded or (if a companion file could not be
      made) orphaned. */
  ghost predicate Claimed(s: Store, s': Store, o: Outside, attempt: nat) {
    && s'.dir == s.dir && s'.nextSequence >= s.nextSequence
    && ((s'.files == s.files && s'.entries == s.entries && s'.manifests == s.manifests && s'.current.None?)
        || exists j: nat :: ClaimedAt(s, s', o, attempt, j))
  }

  ghost predicate ClaimedAt(s: Store, s': Store, o: Outside, attempt: nat, j: nat) {
    attempt <= j < MAX_ATTEMPTS && ClaimedAs(s, s', FreshEntry(o.clock(j), s.nextSequence + (j - attempt)))
  }

  ghost predicate ClaimedAs(s: Store, s': Store, e: ManifestEntry) {
    var q := CapturePath(s.dir, e);
    && q !in s.files
    && Captures(s'.files) == Captures(s.files)[q := []]
    && ((s'.entries == s.entries && s'.current.None? && s'.manifests == s.manifests)
        || (s'.entries == s.entries + [e] && s'.current == Some(|s.entries|)
            && (s'.manifests == s.manifests || s'.manifests == s.manifests[s.dir := s'.entries])))
  }

  lemma CreateFilesEffect(s: Store, e: ManifestEntry, o: Outside)
    requires s.current.None?
    ensures var r := CreateFiles(s, e, o);
            && r.store.dir == s.dir && r.store.nextSequence == s.nextSequence
            && (r.store == s || ClaimedAs(s, r.store, e))
  {
    hide FileName, IsCapture;
    CaptureFiles(Qmdl, e.name, e.compressed);
    CaptureFiles(Analysis, e.name, e.compressed);
    CaptureFiles(Gps, e.name, e.compressed);
    var qmdl, analysis, gps := CapturePath(s.dir, e), PathOf(s.dir, e, Analysis), PathOf(s.dir, e, Gps);
    var f1 := s.files[qmdl := []];
    assert Captures(f1) == Captures(s.files)[qmdl := []];
    CapturesUnchanged(f1, analysis, []);
    CapturesUnchanged(f1[analysis := []], gps, []);
  }

  lemma {:induction false} ClaimNameEffect(s: Store, o: Outside, attempt: nat)
    requires s.current.None?
    ensures Claimed(s, ClaimName(s, o, attempt).store, o, attempt)
    decreases MAX_ATTEMPTS - attempt
  {
    hide FileName, CreateFiles, CapturePath, FreshEntry, Captures;
    if attempt < MAX_ATTEMPTS {
      var e := FreshEntry(o.clock(attempt), s.nextSequence);
      var s1: Store := s.(nextSequence := s.nextSequence + 1);
      var r := ClaimName(s, o, attempt).store;
      if CapturePath(s.dir, e) in s.files {
        ClaimNameEffect(s1, o, attempt + 1);
        var next := attempt + 1;
        if j: nat :| ClaimedAt(s1, r, o, next, j) {
          assert s1.nextSequence + (j - (attempt + 1)) == s.nextSequence + (j - attempt);
          assert ClaimedAt(s, r, o, attempt, j);
        }
      } else {
        CreateFilesEffect(s1, e, o);
        if r != s1 {
          assert ClaimedAt(s, r, o, attempt, attempt);
        }
      }
    }
  }
}
