/** Losing the manifest loses no recording: the parser that recovery uses undoes the
    printer that names captures. */
module Recovery {
  import opened Options
  import opened Numerals
  import opened Names
  import opened Sorting
  import opened StoreModel
  import opened StoreLemmas
  import opened CleanupModel
  import opened RecoveryModel
  import opened DaemonModel

  function CaptureSuffix(compressed: bool): string { if compressed then ".qmdl.gz" else ".qmdl" }

  /** The parser reads a name back from its capture file exactly when the name does not itself
      end like a capture: "1.qmdl" written as "1.qmdl.qmdl" would come back as "1". */
  lemma NameReadsBackExactly(name: string, compressed: bool)
    ensures ParseCapture(FileName(Qmdl, name, compressed)) == Some(CaptureName(name, compressed))
            <==> !EndsWith(name, CaptureSuffix(compressed))
  {
    var suffix := CaptureSuffix(compressed);
    EndsWithSuffix(name, suffix);
    if compressed && EndsWith(name + suffix, ".qmdl") {
      EndsLikeItsSuffix(name + suffix, ".qmdl");
      assert false;
    }
    TrimNeverGrows(name, suffix);
    if EndsWith(name, suffix) {
      TrimNeverGrows(name[..|name| - |suffix|], suffix);
    }
  }

  lemma {:induction false} TrimNeverGrows(s: string, suffix: string)
    requires suffix != ""
    ensures |TrimEnd(s, suffix)| <= |s| && !EndsWith(TrimEnd(s, suffix), suffix)
    decreases |s|
  {
    if EndsWith(s, suffix) {
      TrimNeverGrows(s[..|s| - |suffix|], suffix);
    }
  }

  lemma {:induction false} DigitsBeforeHyphen(digits: string, rest: string)
    requires AllDigits(digits)
    ensures BeforeHyphen(digits + "-" + rest) == digits && BeforeHyphen(digits) == digits
  {
    var s := digits + "-" + rest;
    if digits == "" {
      assert s[0] == '-';
    } else {
      assert s[1..] == digits[1..] + "-" + rest;
      assert s[0] == digits[0] && digits[0] in digits;
      DigitsBeforeHyphen(digits[1..], rest);
    }
  }

  /** The start second reads back from a printed name, or a legacy one, exactly when it is not
      negative and a date. A negative one is lost with its recording. */
  lemma SecondsReadBackExactly(seconds: int, sequence: nat)
    ensures StartSeconds(EntryName(seconds, sequence)) == Some(seconds) <==> 0 <= seconds <= MAX_TIMESTAMP
    ensures StartSeconds(ShowInt(seconds)) == Some(seconds) <==> 0 <= seconds <= MAX_TIMESTAMP
    ensures seconds < 0 ==> StartSeconds(EntryName(seconds, sequence)).None?
  {
    if seconds < 0 {
      assert EntryName(seconds, sequence)[0] == '-';
      assert ParseI64("").None?;
    } else {
      DigitsBeforeHyphen(ShowNat(seconds), ShowNat(sequence));
      if seconds <= MAX_TIMESTAMP {
        ParseUndoesShow(seconds);
      }
    }
  }

  lemma PrintedNamesReadBack(seconds: int, sequence: nat, compressed: bool)
    ensures var name := EntryName(seconds, sequence);
            ParseCapture(FileName(Qmdl, name, compressed)) == Some(CaptureName(name, compressed))
  {
    var name, digits := EntryName(seconds, sequence), ShowNat(sequence);
    NameReadsBackExactly(name, compressed);
    hide ParseCapture, FileName, ShowNat, ShowInt, EndsWith;
    assert name[|name| - 1] == digits[|digits| - 1] && digits[|digits| - 1] in digits;
    if EndsWith(name, CaptureSuffix(compressed)) {
      EndsLikeItsSuffix(name, CaptureSuffix(compressed));
      assert false;
    }
  }

  /** Recovery reads this entry back from its capture file: the same name, compression and
      start second. */
  predicate RoundTrips(e: ManifestEntry) {
    && ParseCapture(FileName(Qmdl, e.name, e.compressed)) == Some(CaptureName(e.name, e.compressed))
    && StartSeconds(e.name) == Some(e.startTime)
  }

  predicate SameRecording(r: ManifestEntry, e: ManifestEntry) {
    r.name == e.name && r.compressed == e.compressed && r.startTime == e.startTime
  }

  predicate Readable(item: DirEntry) { item.metadata.Some? && item.metadata.value.modified.Some? }

  /** Whatever recovery reads from a name, it would read again. */
  lemma RecoveredEntriesRoundTrip(item: DirEntry)
    requires RecoverEntry(item).Some?
    ensures RoundTrips(RecoverEntry(item).value)
  {
    var e := RecoverEntry(item).value;
    TrimNeverGrows(item.file.value, CaptureSuffix(e.compressed));
    NameReadsBackExactly(e.name, e.compressed);
  }

  lemma {:induction false} CollectHas<T, U>(items: seq<T>, read: T -> Option<U>, i: nat)
    requires i < |items| && read(items[i]).Some?
    ensures read(items[i]).value in Collect(items, read)
  {
    if i > 0 {
      assert items[1..][i - 1] == items[i];
      CollectHas(items[1..], read, i - 1);
    }
  }

  /** The positions of the items that can be read, in order. */
  function ReadAt<T, U>(items: seq<T>, read: T -> Option<U>, from: nat): (at: seq<nat>)
    requires from <= |items|
    ensures forall k :: 0 <= k < |at| ==> from <= at[k] < |items|
    decreases |items| - from
  {
    if from == |items| then []
    else (if read(items[from]).Some? then [from] else []) + ReadAt(items, read, from + 1)
  }

  /** The positions, and nothing but them, are where the results come from. */
  ghost predicate MadeFrom<T, U>(items: seq<T>, read: T -> Option<U>, from: nat, at: seq<nat>, made: seq<U>) {
    && |made| == |at|
    && (forall k :: 0 <= k < |at| ==> from <= at[k] < |items| && read(items[at[k]]) == Some(made[k]))
    && (forall j, k :: 0 <= j < k < |at| ==> at[j] < at[k])
    && (forall i :: from <= i < |items| && read(items[i]).Some? ==> i in at)
  }

  lemma MadeFromOneMore<T, U>(items: seq<T>, read: T -> Option<U>, from: nat, at: seq<nat>, made: seq<U>)
    requires from < |items| && MadeFrom(items, read, from + 1, at, made)
    ensures var u := read(items[from]);
            if u.Some? then MadeFrom(items, read, from, [from] + at, [u.value] + made)
            else MadeFrom(items, read, from, at, made)
  {
    if read(items[from]).Some? {
      forall i | from < i < |items| && read(items[i]).Some? ensures i in [from] + at {
        assert i in at;
      }
    }
  }

  lemma {:induction false} CollectIsExact<T, U>(items: seq<T>, read: T -> Option<U>, from: nat)
    requires from <= |items|
    ensures MadeFrom(items, read, from, ReadAt(items, read, from), Collect(items[from..], read))
    decreases |items| - from
  {
    hide MadeFrom;
    if from < |items| {
      CollectIsExact(items, read, from + 1);
      assert items[from..][1..] == items[from + 1..];
      assert items[from..][0] == items[from];
      var at, made := ReadAt(items, read, from + 1), Collect(items[from + 1..], read);
      MadeFromOneMore(items, read, from, at, made);
      assert [] + at == at && [] + made == made;
    } else {
      NothingMade(items, read);
    }
  }

  lemma NothingMade<T, U>(items: seq<T>, read: T -> Option<U>)
    ensures MadeFrom(items, read, |items|, [], [])
  {
  }

  /** Recovery makes exactly one entry of each file it can read a start second from, ordered by
      start time, files with the same second in the order of the listing. */
  lemma RecoveryIsExact(listing: seq<DirEntry>)
    ensures MadeFrom(listing, RecoverEntry, 0, ReadAt(listing, RecoverEntry, 0), RecoverListing(listing))
    ensures multiset(RecoveredEntries(listing)) == multiset(RecoverListing(listing))
    ensures SortedByKey(RecoveredEntries(listing), StartTime)
    ensures forall second ::
              WithKey(RecoveredEntries(listing), StartTime, second)
              == WithKey(RecoverListing(listing), StartTime, second)
  {
    hide MadeFrom;
    CollectIsExact(listing, RecoverEntry, 0);
    assert listing[0..] == listing;
    SortByKeyIsStable(RecoverListing(listing), StartTime);
  }

  /** A listing that leaves no capture of the directory out and could read each one's details. */
  ghost predicate Complete(files: Files, dir: string, listing: seq<DirEntry>) {
    forall p :: p in Captures(files) && p.dir == dir ==>
      exists i :: 0 <= i < |listing| && listing[i].file == Some(p.file) && Readable(listing[i])
  }

  lemma RecoversItsFile(item: DirEntry, e: ManifestEntry)
    requires item.file == Some(FileName(Qmdl, e.name, e.compressed)) && Readable(item) && RoundTrips(e)
    ensures RecoverEntry(item).Some? && SameRecording(RecoverEntry(item).value, e)
  {
    hide FileName, ParseCapture, StartSeconds;
  }

  /** Every entry that round trips and still has its capture is recovered. */
  lemma RecoveryLosesNothing(files: Files, dir: string, listing: seq<DirEntry>, e: ManifestEntry)
    requires Complete(files, dir, listing) && RoundTrips(e) && CapturePath(dir, e) in files
    ensures exists r :: r in RecoveredEntries(listing) && SameRecording(r, e)
  {
    CaptureFiles(Qmdl, e.name, e.compressed);
    hide FileName, IsCapture, RoundTrips, RecoverEntry, SortByKey, Collect;
    var p := CapturePath(dir, e);
    assert p in Captures(files);
    var i :| 0 <= i < |listing| && listing[i].file == Some(p.file) && Readable(listing[i]);
    RecoversItsFile(listing[i], e);
    CollectHas(listing, RecoverEntry, i);
    var r := RecoverEntry(listing[i]).value;
    assert r in multiset(RecoverListing(listing));
    assert r in multiset(RecoveredEntries(listing));
  }

  /** Recovery finds nothing with another start second: digits before the first hyphen, and a date. */
  lemma RecoveredEntriesAreDated(listing: seq<DirEntry>, r: ManifestEntry)
    requires r in RecoveredEntries(listing)
    ensures Dated(r)
  {
    RecoveryIsExact(listing);
    hide RecoverEntry, RecoveredEntries;
    assert r in multiset(RecoveredEntries(listing));
    assert r in multiset(RecoverListing(listing));
    MadeEntriesAreDated(listing);
  }

  lemma {:induction false} MadeEntriesAreDated(listing: seq<DirEntry>)
    ensures forall r :: r in RecoverListing(listing) ==> Dated(r)
  {
    hide ParseCapture, StartSeconds;
    if listing != [] {
      if listing[0].file.Some? && ParseCapture(listing[0].file.value).Some? {
        StartSecondsAreDates(ParseCapture(listing[0].file.value).value.stem);
      }
      MadeEntriesAreDated(listing[1..]);
    }
  }

  lemma StartSecondsAreDates(stem: string)
    ensures StartSeconds(stem).Some? ==> 0 <= StartSeconds(stem).value <= MAX_TIMESTAMP
  {
    NoHyphenBefore(stem);
    hide BeforeHyphen;
  }

  lemma {:induction false} NoHyphenBefore(s: string)
    ensures '-' !in BeforeHyphen(s)
  {
    if s != "" && s[0] != '-' {
      NoHyphenBefore(s[1..]);
    }
  }

  // The store only ever holds entries that round trip, unless they have no date.

  /** Started at a second that is a date since 1970. */
  predicate Dated(e: ManifestEntry) { 0 <= e.startTime <= MAX_TIMESTAMP }

  ghost predicate AllRoundTrip(entries: seq<ManifestEntry>) {
    forall e :: e in entries && Dated(e) ==> RoundTrips(e)
  }

  /** Whatever the store holds or has saved, and has a date, can be recovered. */
  ghost predicate Recorded(s: Store) {
    && AllRoundTrip(s.entries)
    && forall dir :: dir in s.manifests ==> AllRoundTrip(s.manifests[dir])
  }

  lemma FreshEntriesRoundTrip(seconds: int, sequence: nat)
    ensures Dated(FreshEntry(seconds, sequence)) ==> RoundTrips(FreshEntry(seconds, sequence))
  {
    SecondsReadBackExactly(seconds, sequence);
    PrintedNamesReadBack(seconds, sequence, true);
    hide EntryName, FileName, StartSeconds, ParseCapture;
  }

  /** `s'` holds entries of `s` only, perhaps renewed, and has saved at most those. */
  ghost predicate HoldsNoMore(s: Store, s': Store) {
    && (forall e' :: e' in s'.entries ==> exists e :: e in s.entries && SameRecording(e, e'))
    && (s'.manifests == s.manifests || s'.manifests == s.manifests[s.dir := s'.entries])
    && s'.dir == s.dir
  }

  lemma HoldingNoMore(s: Store, s': Store)
    requires Recorded(s) && HoldsNoMore(s, s')
    ensures Recorded(s')
  {
    hide StartSeconds, ParseCapture, FileName;
  }

  lemma HoldsItsOwn(s: Store)
    ensures HoldsNoMore(s, s)
  {
    assert forall e :: e in s.entries ==> SameRecording(e, e);
  }

  lemma HoldsFewer(s: Store, s': Store)
    requires forall e :: e in s'.entries ==> e in s.entries
    requires s'.manifests == s.manifests || s'.manifests == s.manifests[s.dir := s'.entries]
    requires s'.dir == s.dir
    ensures HoldsNoMore(s, s')
  {
    assert forall e :: e in s'.entries ==> SameRecording(e, e);
  }

  lemma HoldsRenewed(s: Store, i: nat, e: ManifestEntry, o: Outside)
    requires i < |s.entries| && SameRecording(s.entries[i], e)
    ensures HoldsNoMore(s, SaveManifest(ReplaceEntry(s, i, e), o).store)
  {
    var renewed := s.entries[i := e];
    forall e' | e' in renewed ensures exists e0 :: e0 in s.entries && SameRecording(e0, e') {
      var j :| 0 <= j < |s.entries| && renewed[j] == e';
      assert s.entries[j] in s.entries && SameRecording(s.entries[j], e');
    }
  }

  lemma UpdatesHoldNoMore(s: Store, size: nat, reason: string, o: Outside)
    ensures HoldsNoMore(s, UpdateCurrentSize(s, size, o).store)
    ensures HoldsNoMore(s, SetStopReason(s, reason, o).store)
  {
    HoldsItsOwn(s);
    if s.current.Some? {
      var i := s.current.value;
      HoldsRenewed(s, i, s.entries[i].(qmdlSize := size, lastMessageTime := Some(o.now)), o);
      HoldsRenewed(s, i, s.entries[i].(stopReason := Some(reason)), o);
    }
  }

  lemma LabelsHoldNoMore(s: Store, name: string, displayName: Option<string>, notes: Option<string>, o: Outside)
    ensures HoldsNoMore(s, Annotate(s, name, displayName, notes, o).store)
    ensures HoldsNoMore(s, MarkUploaded(s, name, o).store)
  {
    HoldsItsOwn(s);
    if i :| FindEntry(s.entries, name) == Some(i) {
      HoldsRenewed(s, i, s.entries[i].(displayName := displayName, notes := notes), o);
      HoldsRenewed(s, i, s.entries[i].(uploadTime := Some(o.now)), o);
    }
  }

  lemma DeletingHoldsNoMore(s: Store, name: string, o: Outside)
    ensures HoldsNoMore(s, DeleteEntry(s, name, o).store)
  {
    hide DeleteEntry;
    DeleteEntryEffect(s, name, o);
    HoldsFewer(s, DeleteEntry(s, name, o).store);
  }

  lemma {:induction false} SweepKeepsOnly(files: Files, dir: string, entries: seq<ManifestEntry>, stuck: set<Path>)
    ensures forall e :: e in SweepEntries(files, dir, entries, stuck).kept ==> e in entries
  {
    hide EntryPaths;
    if entries != [] {
      var removal := RemoveFiles(files, EntryPaths(dir, entries[0]), stuck);
      SweepKeepsOnly(removal.files, dir, entries[1..], stuck);
    }
  }

  lemma DeletingAllHoldsNoMore(s: Store, o: Outside)
    ensures HoldsNoMore(s, DeleteAllEntries(s, o).store)
  {
    hide SweepEntries;
    var s1 := if s.current.Some? then CloseCurrent(s, o).store else s;
    SweepKeepsOnly(s1.files, s1.dir, s1.entries, o.stuck);
    HoldsFewer(s, DeleteAllEntries(s, o).store);
  }

  lemma {:induction false} ClaimingStaysRecorded(s: Store, o: Outside, attempt: nat)
    requires s.current.None? && Recorded(s)
    ensures Recorded(ClaimName(s, o, attempt).store)
    decreases MAX_ATTEMPTS - attempt
  {
    hide CapturePath, FreshEntry, RoundTrips, PathOf;
    if attempt < MAX_ATTEMPTS {
      FreshEntriesRoundTrip(o.clock(attempt), s.nextSequence);
      ClaimingStaysRecorded(s.(nextSequence := s.nextSequence + 1), o, attempt + 1);
    }
  }

  lemma NewEntryStaysRecorded(s: Store, o: Outside)
    requires Recorded(s)
    ensures Recorded(NewEntry(s, o).store)
  {
    hide ClaimName, RoundTrips;
    ClaimingStaysRecorded(if s.current.Some? then CloseCurrent(s, o).store else s, o, 0);
  }

  lemma {:induction false} PruningStaysRecorded(s: Store, names: seq<string>, target: nat, uploads: bool, o: Outside)
    requires Recorded(s)
    ensures Recorded(PruneNames(s, names, target, uploads, o).store)
    decreases |names|
  {
    hide EntryVerdict, DeleteEntry, Recorded;
    if names != [] && !Roomy(s.files, target, o) {
      DeletingHoldsNoMore(s, names[0], o);
      HoldsItsOwn(s);
      HoldingNoMore(s, PruneOne(s, names[0], uploads, o).store);
      PruningStaysRecorded(PruneOne(s, names[0], uploads, o).store, names[1..], target, uploads, o);
    }
  }

  lemma {:induction false} ListingRoundTrips(listing: seq<DirEntry>)
    ensures AllRoundTrip(RecoverListing(listing))
  {
    hide RecoverEntry, RoundTrips;
    if listing != [] {
      if RecoverEntry(listing[0]).Some? {
        RecoveredEntriesRoundTrip(listing[0]);
      }
      ListingRoundTrips(listing[1..]);
    }
  }

  lemma OpeningStaysRecorded(s: Store, dir: string, look: Look, o: Outside)
    requires Recorded(s)
    ensures Recorded(OpenOrRecover(s, dir, look, o).store)
  {
    hide RoundTrips, RecoveredEntries, RecoverListing;
    if look.listing.Some? {
      var listing := look.listing.value;
      ListingRoundTrips(listing);
      assert multiset(RecoveredEntries(listing)) == multiset(RecoverListing(listing)) by { RecoveryIsExact(listing); }
      forall e | e in RecoveredEntries(listing) && Dated(e) ensures RoundTrips(e) {
        assert e in multiset(RecoverListing(listing));
      }
    }
  }
}
