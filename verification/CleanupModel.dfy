/** Which recordings may be removed to make room, and in what order they are. */
module CleanupModel {
  import opened Options
  import opened Names
  import opened StoreModel

  datatype Verdict = Clean | HasWarnings | Unknown
  datatype LineClass = Warning | NoWarning | Malformed

  /** Unicode White_Space, which `str::trim` strips. */
  predicate IsWhitespace(c: char) {
    || '\t' <= c <= '\r' || c == ' ' || c == '\U{85}' || c == '\U{A0}' || c == '\U{1680}'
    || '\U{2000}' <= c <= '\U{200A}' || c == '\U{2028}' || c == '\U{2029}'
    || c == '\U{202F}' || c == '\U{205F}' || c == '\U{3000}'
  }

  function Trim(s: string): string
    decreases |s|
  {
    if s == "" then s
    else if IsWhitespace(s[0]) then Trim(s[1..])
    else if IsWhitespace(s[|s| - 1]) then Trim(s[..|s| - 1])
    else s
  }

  predicate IsWarningEvent(event: Json) {
    && event.Object? && "event_type" in event.members
    && event.members["event_type"].Str? && event.members["event_type"].text != "Informational"
  }

  predicate CarriesWarning(row: Json) {
    && row.Object? && "events" in row.members && row.members["events"].Array?
    && exists event :: event in row.members["events"].items && IsWarningEvent(event)
  }

  function ClassifyLine(line: string, json: string -> Option<Json>): LineClass {
    var trimmed := Trim(line);
    if trimmed == "" then NoWarning
    else
      match json(trimmed)
      case None => Malformed
      case Some(row) => if CarriesWarning(row) then Warning else NoWarning
  }

  predicate Silent(block: Block, json: string -> Option<Json>) {
    block.Text? && ClassifyLine(block.line, json) == NoWarning
  }

  predicate Says(block: Block) { block.Text? && Trim(block.line) != "" }

  /** A report certifies a recording when every line parses, none warns, and there is a line. */
  predicate CertifiesClean(report: FileData, json: string -> Option<Json>) {
    && (forall i :: 0 <= i < |report| ==> Silent(report[i], json))
    && (exists i :: 0 <= i < |report| && Says(report[i]))
  }

  /** A warning is found when it comes before anything unreadable. */
  predicate Warns(report: FileData, json: string -> Option<Json>) {
    exists i :: 0 <= i < |report| && report[i].Text? && ClassifyLine(report[i].line, json) == Warning
                && forall j :: 0 <= j < i ==> Silent(report[j], json)
  }

  function ReportVerdict(report: FileData, json: string -> Option<Json>): Verdict {
    if CertifiesClean(report, json) then Clean
    else if Warns(report, json) then HasWarnings
    else Unknown
  }

  /** Being recorded, waiting for its upload, or labelled by somebody. */
  predicate Spared(s: Store, e: ManifestEntry, uploads: bool) {
    || IsCurrent(s, e.name)
    || (uploads && e.uploadTime.None?)
    || e.displayName.Some? || e.notes.Some?
  }

  function EntryVerdict(s: Store, e: ManifestEntry, uploads: bool, o: Outside): Verdict {
    var report := PathOf(s.dir, e, Analysis);
    if Spared(s, e, uploads) || report !in s.files || report in o.blocked then Unknown
    else ReportVerdict(s.files[report], o.json)
  }

  /** A reading that fails counts as plenty of room. */
  predicate Roomy(files: Files, target: nat, o: Outside) {
    match o.freeMb(files) case None => true case Some(mb) => mb >= target
  }

  function EntryNames(entries: seq<ManifestEntry>): (names: seq<string>)
    ensures |names| == |entries|
    ensures forall i :: 0 <= i < |entries| ==> names[i] == entries[i].name
  {
    seq(|entries|, i requires 0 <= i < |entries| => entries[i].name)
  }

  datatype Pruned = Pruned(store: Store, removed: nat)

  /** Consider one recording for removal. */
  function PruneOne(s: Store, name: string, uploads: bool, o: Outside): Pruned {
    match FindEntry(s.entries, name)
    case None => Pruned(s, 0)
    case Some(i) =>
      if EntryVerdict(s, s.entries[i], uploads, o) != Clean then Pruned(s, 0)
      else
        var r := DeleteEntry(s, name, o);
        Pruned(r.store, if r.outcome == Done then 1 else 0)
  }

  /** Go through the names until there is room. */
  function PruneNames(s: Store, names: seq<string>, target: nat, uploads: bool, o: Outside): Pruned
    decreases |names|
  {
    if names == [] || Roomy(s.files, target, o) then Pruned(s, 0)
    else
      var first := PruneOne(s, names[0], uploads, o);
      var rest := PruneNames(first.store, names[1..], target, uploads, o);
      Pruned(rest.store, first.removed + rest.removed)
  }

  function Prune(s: Store, target: nat, uploads: bool, o: Outside): Pruned {
    PruneNames(s, EntryNames(s.entries), target, uploads, o)
  }
}
