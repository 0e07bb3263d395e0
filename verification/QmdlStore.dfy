/** The recording store as the program has it: an object whose methods update the manifest
    and the files in place. Each is proved to do what the specification says. */
module QmdlStore {
  import opened Options
  import opened Names
  import opened Sorting
  import opened StoreModel
  import opened RecoveryModel

  /** The entries whose flag is set. */
  function Retained(entries: seq<ManifestEntry>, keep: seq<bool>): seq<ManifestEntry>
    requires |keep| == |entries|
  {
    if entries == [] then []
    else
      var n := |entries| - 1;
      Retained(entries[..n], keep[..n]) + (if keep[n] then [entries[n]] else [])
  }

  lemma EntryFilesInOrder(dir: string, e: ManifestEntry, k: nat)
    requires k < |ALL_KINDS|
    ensures |EntryPaths(dir, e)| == |ALL_KINDS|
    ensures EntryPaths(dir, e)[k..][0] == PathOf(dir, e, ALL_KINDS[k])
    ensures EntryPaths(dir, e)[k..][1..] == EntryPaths(dir, e)[k + 1..]
  {
    hide FileName;
  }

  lemma ListingOneMore(listing: seq<DirEntry>, i: nat, found: seq<ManifestEntry>)
    requires i < |listing|
    ensures var e := RecoverEntry(listing[i]);
            found + RecoverListing(listing[i..])
            == (if e.Some? then found + [e.value] else found) + RecoverListing(listing[i + 1..])
  {
    hide RecoverEntry;
    assert listing[i..][1..] == listing[i + 1..];
    var e, rest := RecoverEntry(listing[i]), RecoverListing(listing[i + 1..]);
    if e.Some? {
      assert found + ([e.value] + rest) == (found + [e.value]) + rest;
    } else {
      assert [] + rest == rest;
    }
  }

  function SweptSoFar(rest: Sweep, kept: seq<ManifestEntry>): Sweep {
    Sweep(rest.files, kept + rest.kept)
  }

  lemma SweepOneMore(before: Files, removal: Removal, dir: string, entries: seq<ManifestEntry>,
                     keep: seq<bool>, stuck: set<Path>)
    requires |keep| < |entries|
    requires removal == RemoveFiles(before, EntryPaths(dir, entries[|keep|]), stuck)
    ensures var i, keep' := |keep|, keep + [!removal.complete];
            SweptSoFar(SweepEntries(before, dir, entries[i..], stuck), Retained(entries[..i], keep))
            == SweptSoFar(SweepEntries(removal.files, dir, entries[i + 1..], stuck), Retained(entries[..i + 1], keep'))
  {
    hide EntryPaths, RemoveFiles;
    var i, keep' := |keep|, keep + [!removal.complete];
    assert entries[i..][1..] == entries[i + 1..];
    assert entries[..i + 1][..i] == entries[..i] && keep'[..i] == keep;
  }

  lemma FirstRemoval(files: Files, paths: seq<Path>, stuck: set<Path>)
    requires paths != []
    ensures var first := RemoveFiles(files, [paths[0]], stuck);
            RemoveFiles(files, paths, stuck)
            == if first.complete then RemoveFiles(first.files, paths[1..], stuck) else first
  {
    assert [paths[0]][1..] == [];
    if paths[0] !in files {
      assert files - {paths[0]} == files;
    }
  }

  class RecordingStore {
    var files: Files
    var manifests: map<string, seq<ManifestEntry>>
    var path: string
    var entries: seq<ManifestEntry>
    var currentEntry: Option<nat>
    var nextSequence: nat

    predicate Valid()
      reads this
    {
      currentEntry.Some? ==> currentEntry.value < |entries|
    }

    function State(): Store
      requires Valid()
      reads this
    {
      RawStore(files, manifests, path, entries, currentEntry, nextSequence)
    }

    /** A directory opened with its manifest as loaded. */
    constructor (files: Files, manifests: map<string, seq<ManifestEntry>>, path: string, entries: seq<ManifestEntry>,
                 nextSequence: nat)
      ensures Valid()
      ensures State() == RawStore(files, manifests, path, entries, None, nextSequence)
    {
      this.files, this.manifests, this.path := files, manifests, path;
      this.entries, this.currentEntry, this.nextSequence := entries, None, nextSequence;
    }

    method WriteManifest(o: Outside) returns (outcome: Outcome)
      requires Valid()
      modifies `manifests
      ensures Valid() && Stepped(State(), outcome) == SaveManifest(old(State()), o)
    {
      if !o.saves(path, entries) {
        return Failed(WriteManifestError);
      }
      manifests := manifests[path := entries];
      outcome := Done;
    }

    method RemoveFileIfExists(p: Path, o: Outside) returns (ok: bool)
      modifies `files
      ensures Removal(files, ok) == RemoveFiles(old(files), [p], o.stuck)
    {
      if p in files {
        if p in o.stuck {
          return false;
        }
        files := files - {p};
      }
      ok := true;
    }

    /** The loop over the four kinds of file, given up at the first that cannot be removed. */
    method RemoveEntryFiles(e: ManifestEntry, o: Outside) returns (complete: bool)
      modifies `files
      ensures Removal(files, complete) == RemoveFiles(old(files), EntryPaths(path, e), o.stuck)
    {
      var k := 0;
      while k < |ALL_KINDS|
        invariant k <= |ALL_KINDS| == |EntryPaths(path, e)|
        invariant RemoveFiles(old(files), EntryPaths(path, e), o.stuck)
                  == RemoveFiles(files, EntryPaths(path, e)[k..], o.stuck)
      {
        hide *;
        EntryFilesInOrder(path, e, k);
        FirstRemoval(files, EntryPaths(path, e)[k..], o.stuck);
        var ok := RemoveFileIfExists(PathOf(path, e, ALL_KINDS[k]), o);
        if !ok {
          return false;
        }
        k := k + 1;
      }
      complete := true;
    }

    method CloseCurrentEntry(o: Outside) returns (outcome: Outcome)
      requires Valid()
      modifies `currentEntry, `files
      ensures Valid() && Stepped(State(), outcome) == CloseCurrent(old(State()), o)
    {
      match currentEntry
      case None => outcome := Failed(NoCurrentEntry);
      case Some(i) =>
        currentEntry := None;
        files := FinishSidecar(files, PathOf(path, entries[i], Meta), o);
        outcome := Done;
    }

    /** Files first, entry last. */
    method DeleteEntry(name: string, o: Outside) returns (outcome: Outcome)
      requires Valid()
      modifies this
      ensures Valid() && Stepped(State(), outcome) == StoreModel.DeleteEntry(old(State()), name, o)
    {
      hide EntryPaths;
      var found := FindEntry(entries, name);
      if found.None? {
        return Failed(NoSuchEntryError);
      }
      var i := found.value;
      var complete := RemoveEntryFiles(entries[i], o);
      if !complete {
        return Failed(DeleteFileError);
      }
      if currentEntry == Some(i) {
        var _ := CloseCurrentEntry(o);
      } else if currentEntry.Some? && currentEntry.value > i {
        currentEntry := Some(currentEntry.value - 1);
      }
      entries := Without(entries, i);
      outcome := WriteManifest(o);
    }

    /** Every entry's files are tried; a flag says whether some are left. */
    method RemoveAllFiles(o: Outside) returns (keep: seq<bool>)
      modifies `files
      ensures |keep| == |entries|
      ensures SweepEntries(old(files), path, entries, o.stuck) == Sweep(files, Retained(entries, keep))
    {
      keep := [];
      while |keep| < |entries|
        invariant |keep| <= |entries|
        invariant SweepEntries(old(files), path, entries, o.stuck)
                  == SweptSoFar(SweepEntries(files, path, entries[|keep|..], o.stuck),
                                Retained(entries[..|keep|], keep))
      {
        hide EntryPaths, RemoveFiles;
        var i := |keep|;
        ghost var before := files;
        var complete := RemoveEntryFiles(entries[i], o);
        SweepOneMore(before, Removal(files, complete), path, entries, keep, o.stuck);
        keep := keep + [!complete];
      }
      assert entries[..|entries|] == entries;
      assert keep[..|entries|] == keep;
    }

    /** An entry with a file left keeps its place. */
    method DeleteAllEntries(o: Outside) returns (outcome: Outcome)
      requires Valid()
      modifies this
      ensures Valid() && Stepped(State(), outcome) == StoreModel.DeleteAllEntries(old(State()), o)
    {
      hide SweepEntries, Retained;
      if currentEntry.Some? {
        var _ := CloseCurrentEntry(o);
      }
      var keep := RemoveAllFiles(o);
      entries := Retained(entries, keep);
      outcome := WriteManifest(o);
    }

    /** Claim a fresh name by creating its capture exclusively, up to the number of attempts,
        then the companion files, also exclusively. */
    method NewEntry(o: Outside) returns (outcome: Outcome)
      requires Valid()
      modifies this
      ensures Valid() && Stepped(State(), outcome) == StoreModel.NewEntry(old(State()), o)
    {
      hide CreateFiles, FreshEntry, CapturePath, FinishSidecar, PathOf;
      if currentEntry.Some? {
        var _ := CloseCurrentEntry(o);
      }
      var attempt := 0;
      while attempt < MAX_ATTEMPTS
        invariant attempt <= MAX_ATTEMPTS && Valid() && currentEntry.None?
        invariant StoreModel.NewEntry(old(State()), o) == ClaimName(State(), o, attempt)
      {
        var e := FreshEntry(o.clock(attempt), nextSequence);
        nextSequence := nextSequence + 1;
        if CapturePath(path, e) !in files {
          outcome := CreateEntryFiles(e, o);
          return;
        }
        attempt := attempt + 1;
      }
      outcome := Failed(CreateFileError);
    }

    method CreateEntryFiles(e: ManifestEntry, o: Outside) returns (outcome: Outcome)
      requires Valid() && currentEntry.None?
      modifies this
      ensures Valid() && Stepped(State(), outcome) == CreateFiles(old(State()), e, o)
    {
      hide FileName;
      var created := CreateNew(PathOf(path, e, Qmdl), o);
      if !created {
        return Failed(CreateFileError);
      }
      created := CreateNew(PathOf(path, e, Analysis), o);
      if !created {
        return Failed(CreateFileError);
      }
      created := CreateNew(PathOf(path, e, Gps), o);
      if !created {
        return Failed(CreateFileError);
      }
      entries := entries + [e];
      currentEntry := Some(|entries| - 1);
      outcome := WriteManifest(o);
    }

    /** Exclusive creation: an existing file is never truncated. */
    method CreateNew(p: Path, o: Outside) returns (created: bool)
      modifies `files
      ensures created == Creatable(old(files), p, o)
      ensures files == if created then old(files)[p := []] else old(files)
    {
      created := p !in files && p !in o.blocked;
      if created {
        files := files[p := []];
      }
    }

    method UpdateCurrentEntryQmdlSize(size: nat, o: Outside) returns (outcome: Outcome)
      requires Valid()
      modifies `entries, `manifests
      ensures Valid() && Stepped(State(), outcome) == UpdateCurrentSize(old(State()), size, o)
    {
      if currentEntry.None? {
        return Failed(NoCurrentEntry);
      }
      var i := currentEntry.value;
      entries := entries[i := entries[i].(qmdlSize := size)];
      entries := entries[i := entries[i].(lastMessageTime := Some(o.now))];
      assert entries == old(entries)[i := old(entries)[i].(qmdlSize := size, lastMessageTime := Some(o.now))];
      outcome := WriteManifest(o);
    }

    method SetCurrentStopReason(reason: string, o: Outside) returns (outcome: Outcome)
      requires Valid()
      modifies `entries, `manifests
      ensures Valid() && Stepped(State(), outcome) == SetStopReason(old(State()), reason, o)
    {
      if currentEntry.None? {
        return Done;
      }
      var i := currentEntry.value;
      entries := entries[i := entries[i].(stopReason := Some(reason))];
      outcome := WriteManifest(o);
    }

    method SetEntryAnnotations(name: string, displayName: Option<string>, notes: Option<string>, o: Outside)
      returns (outcome: Outcome)
      requires Valid()
      modifies `entries, `manifests
      ensures Valid() && Stepped(State(), outcome) == Annotate(old(State()), name, displayName, notes, o)
    {
      var found := FindEntry(entries, name);
      if found.None? {
        return Failed(NoSuchEntryError);
      }
      var i := found.value;
      entries := entries[i := entries[i].(displayName := displayName)];
      entries := entries[i := entries[i].(notes := notes)];
      assert entries == old(entries)[i := old(entries)[i].(displayName := displayName, notes := notes)];
      outcome := WriteManifest(o);
    }

    method MarkEntryAsUploaded(name: string, o: Outside) returns (outcome: Outcome)
      requires Valid()
      modifies `entries, `manifests
      ensures Valid() && Stepped(State(), outcome) == MarkUploaded(old(State()), name, o)
    {
      var found := FindEntry(entries, name);
      if found.None? {
        return Failed(NoSuchEntryError);
      }
      var i := found.value;
      entries := entries[i := entries[i].(uploadTime := Some(o.now))];
      outcome := WriteManifest(o);
    }

    /** The loop over the directory, leaving out every file that is not a readable capture. */
    static method ReadListing(listing: seq<DirEntry>) returns (found: seq<ManifestEntry>)
      ensures found == RecoverListing(listing)
    {
      found := [];
      var i := 0;
      while i < |listing|
        invariant i <= |listing|
        invariant RecoverListing(listing) == found + RecoverListing(listing[i..])
      {
        hide RecoverEntry, RecoverListing;
        ListingOneMore(listing, i, found);
        var e := RecoverEntry(listing[i]);
        if e.Some? {
          found := found + [e.value];
        }
        i := i + 1;
      }
    }

    /** Rebuild the manifest from a directory listing, sorted chronologically. */
    method Recover(dir: string, look: Look, o: Outside) returns (outcome: Outcome)
      requires Valid()
      modifies this
      ensures Valid() && Stepped(State(), outcome) == RecoveryModel.Recover(old(State()), dir, look, o)
    {
      if look.listing.None? {
        return Failed(OpenDirError);
      }
      var found := ReadListing(look.listing.value);
      outcome := Open(dir, SortByKey(found, StartTime), o);
    }

    /** Move to a directory under a manifest that has to be saved there first. */
    method Open(dir: string, manifest: seq<ManifestEntry>, o: Outside) returns (outcome: Outcome)
      requires Valid()
      modifies this
      ensures Valid()
      ensures var r := SaveManifest(OpenAs(old(State()), dir, manifest), o);
              Stepped(State(), outcome) == if r.outcome == Done then r else Stepped(old(State()), r.outcome)
    {
      if !o.saves(dir, manifest) {
        return Failed(WriteManifestError);
      }
      path, entries, currentEntry := dir, manifest, None;
      outcome := WriteManifest(o);
    }

    method OpenOrRecover(dir: string, look: Look, o: Outside) returns (outcome: Outcome)
      requires Valid()
      modifies this
      ensures Valid() && Stepped(State(), outcome) == RecoveryModel.OpenOrRecover(old(State()), dir, look, o)
      ensures outcome != Done ==> State() == old(State())
    {
      if !look.reachable {
        outcome := Failed(OpenDirError);
      } else if dir in manifests {
        match look.manifest
        case Loads =>
          path, entries, currentEntry := dir, manifests[dir], None;
          outcome := Done;
        case Unparsable => outcome := Recover(dir, look, o);
        case Unreadable => outcome := Failed(ReadManifestError);
      } else if look.dirExists {
        outcome := Recover(dir, look, o);
      } else if !look.creatable {
        outcome := Failed(OpenDirError);
      } else {
        outcome := Open(dir, [], o);
      }
    }

    /** The entry to upload next: of those old enough, not current and not yet uploaded, the
        oldest; of several equally old the last, as the iterator's maximum has it. */
    method GetNextUnuploadedEntry(minAge: int, now: int) returns (name: Option<string>)
      requires Valid()
      ensures name == NextUnuploaded(State(), minAge, now)
    {
      var best: Option<nat> := None;
      var i := 0;
      while i < |entries|
        invariant i <= |entries|
        invariant best == OldestUploadable(State(), i, minAge, now)
      {
        var e := entries[i];
        if Uploadable(State(), e, minAge, now)
           && (best.None? || Age(e, now) >= Age(entries[best.value], now)) {
          best := Some(i);
        }
        i := i + 1;
      }
      name := if best.Some? then Some(entries[best.value].name) else None;
    }
  }
}
