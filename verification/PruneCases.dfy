/** Two manifests, as recovery makes them, of which pruning leaves a recording that reads clean. */
module PruneCases {
  import opened Options
  import opened Numerals
  import opened Names
  import opened Sorting
  import opened StoreModel
  import opened CleanupModel
  import opened RecoveryModel
  import opened Recovery
  import opened PruneOrder

  /** No room, ever; every line of a report is an empty object. */
  const Crowded: Outside :=
    Outside({}, {}, (dir: string, entries: seq<ManifestEntry>) => true, (files: Files) => Some(0), (j: nat) => 0,
            0, 0, [], (line: string) => Some(Object(map[])), {}, [], None, [], "")

  const CleanReport: FileData := [Text("{}")]

  function Listed(e: ManifestEntry): DirEntry {
    DirEntry(Some(FileName(Qmdl, e.name, e.compressed)), Some(Metadata(0, Some(0))))
  }

  function Rebuilt(name: string, seconds: int, compressed: bool): ManifestEntry {
    ManifestEntry(name, seconds, Some(0), 0, None, None, compressed, None, None)
  }

  lemma ReadsBack(name: string, seconds: int, compressed: bool)
    requires StartSeconds(name) == Some(seconds) && !EndsWith(name, CaptureSuffix(compressed))
    ensures RecoverEntry(Listed(Rebuilt(name, seconds, compressed))) == Some(Rebuilt(name, seconds, compressed))
  {
    NameReadsBackExactly(name, compressed);
    hide FileName, StartSeconds, ParseCapture;
  }

  lemma CollectTwo<T, U>(a: T, b: T, read: T -> Option<U>)
    requires read(a).Some? && read(b).Some?
    ensures Collect([a, b], read) == [read(a).value, read(b).value]
  {
    assert [a, b][1..] == [b] && [b][1..] == [];
    assert Collect([b], read) == [read(b).value] + Collect([], read) == [read(b).value];
  }

  lemma PairSorted(e: ManifestEntry, other: ManifestEntry)
    requires e.startTime == other.startTime
    ensures SortByKey([e, other], StartTime) == [e, other]
  {
    assert [e, other][1..] == [other];
    assert SortByKey([other], StartTime) == [other];
  }

  lemma PairRecovered(e: ManifestEntry, other: ManifestEntry)
    requires RecoverEntry(Listed(e)) == Some(e) && RecoverEntry(Listed(other)) == Some(other)
    requires e.startTime == other.startTime
    ensures RecoveredEntries([Listed(e), Listed(other)]) == [e, other]
  {
    CollectTwo(Listed(e), Listed(other), RecoverEntry);
    PairSorted(e, other);
    hide RecoverEntry, Listed, SortByKey, RecoverListing;
  }

  /** A capture called by its second, as older versions did, and its compressed copy are recovered as
      two recordings of one name; and nothing keeps a file from being called like another recording's
      position file. */
  lemma RecoveryRepeatsNames(name: string, seconds: int)
    requires name != "" && AllDigits(name) && StartSeconds(name) == Some(seconds)
    ensures var e, copy, namesake := Rebuilt(name, seconds, false), Rebuilt(name, seconds, true),
                                     Rebuilt(name + "-gps", seconds, false);
            && RecoveredEntries([Listed(e), Listed(copy)]) == [e, copy]
            && RecoveredEntries([Listed(e), Listed(namesake)]) == [e, namesake]
  {
    StartsAlike(name);
    assert name[|name| - 1] in name;
    NoCaptureSuffix(name);
    NoCaptureSuffix(name + "-gps");
    hide *;
    ReadsBack(name, seconds, false);
    ReadsBack(name, seconds, true);
    ReadsBack(name + "-gps", seconds, false);
    PairRecovered(Rebuilt(name, seconds, false), Rebuilt(name, seconds, true));
    PairRecovered(Rebuilt(name, seconds, false), Rebuilt(name + "-gps", seconds, false));
  }

  lemma StartsAlike(name: string)
    requires AllDigits(name)
    ensures StartSeconds(name + "-gps") == StartSeconds(name)
  {
    DigitsBeforeHyphen(name, "gps");
    assert name + "-gps" == name + "-" + "gps";
    hide ParseI64, BeforeHyphen;
  }

  lemma NoCaptureSuffix(name: string)
    requires name != "" && name[|name| - 1] != 'l' && name[|name| - 1] != 'z'
    ensures forall compressed :: !EndsWith(name, CaptureSuffix(compressed))
  {
    if EndsWith(name, ".qmdl") {
      EndsLikeItsSuffix(name, ".qmdl");
    }
    if EndsWith(name, ".qmdl.gz") {
      EndsLikeItsSuffix(name, ".qmdl.gz");
    }
  }

  /** Two recordings with their captures and clean reports, and nothing else. */
  function Holding(dir: string, e: ManifestEntry, other: ManifestEntry): Store {
    RawStore(map[CapturePath(dir, e) := [], CapturePath(dir, other) := [],
                 PathOf(dir, e, Analysis) := CleanReport, PathOf(dir, other, Analysis) := CleanReport],
             map[], dir, [e, other], None, 0)
  }

  lemma CleanReportIsClean()
    ensures ReportVerdict(CleanReport, Crowded.json) == Clean
  {
    assert Trim("{}") == "{}";
    assert Says(CleanReport[0]) && Silent(CleanReport[0], Crowded.json);
  }

  lemma BothAreVictims(dir: string, e: ManifestEntry, other: ManifestEntry)
    requires e.displayName.None? && e.notes.None? && other.displayName.None? && other.notes.None?
    ensures var s := Holding(dir, e, other);
            Victim(s, e, false, Crowded) && Victim(s, other, false, Crowded)
  {
    CleanReportIsClean();
    hide FileName, ReportVerdict;
  }

  /** Both read clean and there is never room, yet the second is left: it shares the first one's
      name, or is called like its position file. */
  lemma SecondIsLeft(dir: string, e: ManifestEntry, other: ManifestEntry)
    requires e.displayName.None? && e.notes.None? && other.displayName.None? && other.notes.None?
    requires other.name == e.name || other.name == e.name + "-gps"
    ensures var s := Holding(dir, e, other);
            && Prune(s, 1, false, Crowded).store.entries == [other]
            && WithoutVictims(s, 2, false, Crowded) == []
  {
    var s := Holding(dir, e, other);
    BothAreVictims(dir, e, other);
    var k := PruneTakesTheShortestPrefix(s, 1, false, Crowded);
    FirstMeans(s, 0);
    NamesakeStays(s, 0, 1, false, Crowded);
    VictimGoesExactly(s, 0, false, Crowded);
    OnlyTheSecond(s, false, Crowded);
    hide Victim, Goes, Prune, Spares, WithoutVictims;
  }

  lemma OnlyTheSecond(s: Store, uploads: bool, o: Outside)
    requires |s.entries| == 2 && Goes(s, 0, uploads, o) && !Goes(s, 1, uploads, o)
    requires Victim(s, s.entries[0], uploads, o) && Victim(s, s.entries[1], uploads, o)
    ensures Spares(s, 2, uploads, o) == [s.entries[1]] && WithoutVictims(s, 2, uploads, o) == []
  {
    hide Goes, Victim;
    assert Spares(s, 1, uploads, o) == [] && WithoutVictims(s, 1, uploads, o) == [];
  }
}
