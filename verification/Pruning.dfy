/** Making room as the program does it: loops over the report's lines and over the manifest. */
module Pruning {
  import opened Options
  import opened Names
  import opened StoreModel
  import opened CleanupModel
  import opened QmdlStore

  /** Reading a report line by line, keeping track of whether any line said something. */
  method ReadReport(report: FileData, json: string -> Option<Json>) returns (verdict: Verdict)
    ensures verdict == ReportVerdict(report, json)
  {
    hide Trim, CarriesWarning, ClassifyLine;
    var sawALine := false;
    var i := 0;
    while i < |report|
      invariant i <= |report|
      invariant forall j :: 0 <= j < i ==> Silent(report[j], json)
      invariant sawALine <==> exists j :: 0 <= j < i && Says(report[j])
    {
      if report[i].Binary? {
        return Unknown;
      }
      var line := report[i].line;
      if Trim(line) != "" {
        sawALine := true;
      }
      match ClassifyLine(line, json) {
        case Warning => return HasWarnings;
        case Malformed => return Unknown;
        case NoWarning =>
      }
      i := i + 1;
    }
    verdict := if sawALine then Clean else Unknown;
  }

  method VerdictFor(store: RecordingStore, index: nat, uploads: bool, o: Outside) returns (verdict: Verdict)
    requires store.Valid()
    ensures verdict == if index < |store.entries| then EntryVerdict(store.State(), store.entries[index], uploads, o)
                       else Unknown
  {
    hide FileName;
    if index >= |store.entries| {
      return Unknown;
    }
    var e := store.entries[index];
    if IsCurrent(store.State(), e.name) {
      return Unknown;
    }
    if uploads && e.uploadTime.None? {
      return Unknown;
    }
    if e.displayName.Some? || e.notes.Some? {
      return Unknown;
    }
    var report := PathOf(store.path, e, Analysis);
    if report !in store.files || report in o.blocked {
      return Unknown;
    }
    verdict := ReadReport(store.files[report], o.json);
  }

  /** Oldest first, stopping as soon as there is room. */
  method PruneCleanRecordings(store: RecordingStore, target: nat, uploads: bool, o: Outside) returns (removed: nat)
    requires store.Valid()
    modifies store
    ensures store.Valid() && Pruned(store.State(), removed) == Prune(old(store.State()), target, uploads, o)
  {
    hide EntryVerdict, DeleteEntry, Roomy;
    removed := 0;
    if Roomy(store.files, target, o) {
      return;
    }
    var names := EntryNames(store.entries);
    var i := 0;
    while i < |names|
      invariant i <= |names| && store.Valid()
      invariant var rest := PruneNames(store.State(), names[i..], target, uploads, o);
                Prune(old(store.State()), target, uploads, o) == Pruned(rest.store, removed + rest.removed)
    {
      if Roomy(store.files, target, o) {
        break;
      }
      var name := names[i];
      assert names[i..][0] == name && names[i..][1..] == names[i + 1..];
      i := i + 1;
      var found := FindEntry(store.entries, name);
      if found.None? {
        continue;
      }
      var verdict := VerdictFor(store, found.value, uploads, o);
      if verdict != Clean {
        continue;
      }
      var outcome := store.DeleteEntry(name, o);
      if outcome == Done {
        removed := removed + 1;
      }
    }
  }
}
