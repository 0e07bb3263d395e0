/** Making room removes clean recordings only, oldest first, and no more than it must. */
module Cleanup {
  import opened Options
  import opened Names
  import opened StoreModel
  import opened StoreLemmas
  import opened CleanupModel

  /** `s'` is `s` with some recordings removed, each of which `s` itself shows to be clean. */
  ghost predicate OnlyCleanRemoved(s: Store, s': Store, uploads: bool, o: Outside) {
    && SameLive(s, s') && s'.nextSequence == s.nextSequence
    && (forall p :: p in s'.files ==> p in s.files && s'.files[p] == s.files[p])
    && (forall e :: e in s'.entries ==> e in s.entries)
    && (forall e :: e in s.entries && e !in s'.entries ==> EntryVerdict(s, e, uploads, o) == Clean)
    && (forall p :: p in Captures(s.files) && p !in s'.files ==>
          exists e :: e in s.entries && CapturePath(s.dir, e) == p && EntryVerdict(s, e, uploads, o) == Clean)
  }

  /** A recording that reads clean after a removal read clean before it. */
  lemma CleanBefore(s: Store, s': Store, e: ManifestEntry, uploads: bool, o: Outside)
    requires SameLive(s, s') && e in s.entries
    requires forall p :: p in s'.files ==> p in s.files && s'.files[p] == s.files[p]
    requires EntryVerdict(s', e, uploads, o) == Clean
    ensures EntryVerdict(s, e, uploads, o) == Clean
  {
    hide FileName, ReportVerdict;
  }

  lemma PruneOneEffect(s: Store, name: string, uploads: bool, o: Outside)
    ensures OnlyCleanRemoved(s, PruneOne(s, name, uploads, o).store, uploads, o)
    ensures KeepsListed(s, PruneOne(s, name, uploads, o).store)
  {
    hide FileName, EntryVerdict, DeleteEntry, CapturePath, IsCapture, Without, Lists;
    var s' := PruneOne(s, name, uploads, o).store;
    if i :| FindEntry(s.entries, name) == Some(i) && EntryVerdict(s, s.entries[i], uploads, o) == Clean {
      assert s.entries[i] in s.entries;
      NotCurrent(s, s.entries[i], uploads, o);
      DeleteEntryEffect(s, name, o);
      DeletedFilesGo(s, name, o);
      OnlyOneDropped(s.entries, i);
      DeleteEntryKeepsListed(s, name, o);
      forall p | p in Captures(s.files) && p !in s'.files
        ensures exists e :: e in s.entries && CapturePath(s.dir, e) == p && EntryVerdict(s, e, uploads, o) == Clean
      {
        assert p !in Captures(s'.files);
        assert CapturePath(s.dir, s.entries[i]) == p;
      }
    } else {
      assert s' == s;
    }
  }

  lemma OnlyOneDropped(entries: seq<ManifestEntry>, i: nat)
    requires i < |entries|
    ensures forall e :: e in Without(entries, i) ==> e in entries
    ensures forall e :: e in entries && e !in Without(entries, i) ==> e == entries[i]
  {
    forall e | e in entries && e != entries[i] ensures e in Without(entries, i) {
      var j :| 0 <= j < |entries| && entries[j] == e;
      assert Without(entries, i)[if j < i then j else j - 1] == e;
    }
  }

  lemma NotCurrent(s: Store, e: ManifestEntry, uploads: bool, o: Outside)
    requires EntryVerdict(s, e, uploads, o) == Clean
    ensures !IsCurrent(s, e.name)
  {
  }

  lemma DeletedFilesGo(s: Store, name: string, o: Outside)
    requires !IsCurrent(s, name)
    ensures forall p :: p in DeleteEntry(s, name, o).store.files ==>
              p in s.files && DeleteEntry(s, name, o).store.files[p] == s.files[p]
  {
    hide FileName, EntryPaths;
  }

  lemma RemovalsCompose(s: Store, s1: Store, s2: Store, uploads: bool, o: Outside)
    requires OnlyCleanRemoved(s, s1, uploads, o) && OnlyCleanRemoved(s1, s2, uploads, o)
    ensures OnlyCleanRemoved(s, s2, uploads, o)
  {
    hide FileName, EntryVerdict, CapturePath, IsCapture;
    forall e | e in s.entries && e in s1.entries && EntryVerdict(s1, e, uploads, o) == Clean
      ensures EntryVerdict(s, e, uploads, o) == Clean
    {
      CleanBefore(s, s1, e, uploads, o);
    }
    forall p | p in Captures(s.files) && p !in s2.files
      ensures exists e :: e in s.entries && CapturePath(s.dir, e) == p && EntryVerdict(s, e, uploads, o) == Clean
    {
      if p in s1.files {
        var e :| e in s1.entries && CapturePath(s1.dir, e) == p && EntryVerdict(s1, e, uploads, o) == Clean;
        assert e in s.entries;
      }
    }
  }

  /** Pruning never removes the current recording or one that does not read clean. */
  lemma {:induction false} PruneEffect(s: Store, names: seq<string>, target: nat, uploads: bool, o: Outside)
    ensures OnlyCleanRemoved(s, PruneNames(s, names, target, uploads, o).store, uploads, o)
    ensures KeepsListed(s, PruneNames(s, names, target, uploads, o).store)
    decreases |names|
  {
    hide FileName, EntryVerdict, CapturePath, IsCapture, PruneOne, Lists;
    if names == [] || Roomy(s.files, target, o) {
    } else {
      var s1 := PruneOne(s, names[0], uploads, o).store;
      var s2 := PruneNames(s1, names[1..], target, uploads, o).store;
      PruneOneEffect(s, names[0], uploads, o);
      PruneEffect(s1, names[1..], target, uploads, o);
      RemovalsCompose(s, s1, s2, uploads, o);
      ListingComposes(s, s1, s2);
    }
  }
}
