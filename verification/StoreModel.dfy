/** The recording store as a value: the directory tree it works on, the manifest
    it holds in memory and the one it last saved, and what each operation does to them.
    Everything the operating system decides is gathered in `Outside`. */
module StoreModel {
  import opened Options
  import opened Names

  /** One line of a report, or a block of bytes that is not text. */
  datatype Block = Text(line: string) | Binary(bytes: seq<bv8>)
  type FileData = seq<Block>
  datatype Path = Path(dir: string, file: string)
  type Files = map<Path, FileData>

  datatype Json =
    | Null
    | Bool(flag: bool)
    | Number(digits: string)
    | Str(text: string)
    | Array(items: seq<Json>)
    | Object(members: map<string, Json>)

  datatype ManifestEntry = ManifestEntry(
    name: string,
    startTime: int,
    lastMessageTime: Option<int>,
    qmdlSize: nat,
    stopReason: Option<string>,
    uploadTime: Option<int>,
    compressed: bool,
    displayName: Option<string>,
    notes: Option<string>)

  datatype StoreError =
    | NoCurrentEntry
    | NoSuchEntryError
    | CreateFileError
    | DeleteFileError
    | OpenDirError
    | ReadManifestError
    | WriteFileError
    | WriteManifestError
    | InsufficientDiskSpace(available: nat, required: nat)

  datatype Outcome = Done | Failed(error: StoreError)

  datatype RawStore = RawStore(
    files: Files,
    manifests: map<string, seq<ManifestEntry>>, // manifest.toml of each directory
    dir: string,
    entries: seq<ManifestEntry>,
    current: Option<nat>,
    nextSequence: nat)

  /** The current entry is an index into the manifest, so it must be in range:
      the program indexes with it unchecked. */
  type Store = s: RawStore | s.current.Some? ==> s.current.value < |s.entries|
    witness RawStore(map[], map[], "", [], None, 0)

  datatype Stepped = Stepped(store: Store, outcome: Outcome)

  /** What the world answers during one operation. */
  datatype Outside = Outside(
    stuck: set<Path>,                              // existing files that cannot be removed
    blocked: set<Path>,                            // files that cannot be created or opened
    saves: (string, seq<ManifestEntry>) -> bool,   // whether a manifest can be saved
    freeMb: Files -> Option<nat>,                  // free space, None if it cannot be read
    clock: nat -> int,                             // successive readings of the adjusted clock
    now: int,
    tick: nat,                                     // the monotonic clock
    sidecar: FileData,                             // what a device-details write puts down
    json: string -> Option<Json>,                  // parsing one line of a report
    unwritable: set<Path>,                         // open files that writing to fails
    trailer: FileData,                             // what closing a capture appends
    closedSize: Option<nat>,                       // its size then, None if closing fails
    header: FileData,                              // the first lines of a new report
    wording: string)                               // the text of a stop reason

  function PathOf(dir: string, e: ManifestEntry, kind: FileKind): Path {
    Path(dir, FileName(kind, e.name, e.compressed))
  }

  function CapturePath(dir: string, e: ManifestEntry): Path { PathOf(dir, e, Qmdl) }

  function EntryPaths(dir: string, e: ManifestEntry): seq<Path> {
    [PathOf(dir, e, Qmdl), PathOf(dir, e, Analysis), PathOf(dir, e, Gps), PathOf(dir, e, Meta)]
  }

  function FindEntry(entries: seq<ManifestEntry>, name: string): (r: Option<nat>)
    ensures r.None? ==> forall j :: 0 <= j < |entries| ==> entries[j].name != name
    ensures r.Some? ==> r.value < |entries| && entries[r.value].name == name
    ensures r.Some? ==> forall j :: 0 <= j < r.value ==> entries[j].name != name
  {
    if entries == [] then None
    else if entries[0].name == name then Some(0)
    else match FindEntry(entries[1..], name) case None => None case Some(i) => Some(i + 1)
  }

  function CurrentEntry(s: Store): Option<ManifestEntry> {
    match s.current case None => None case Some(i) => Some(s.entries[i])
  }

  predicate IsCurrent(s: Store, name: string) {
    s.current.Some? && s.entries[s.current.value].name == name
  }

  function SaveManifest(s: Store, o: Outside): Stepped {
    if o.saves(s.dir, s.entries) then
      Stepped(s.(manifests := s.manifests[s.dir := s.entries]), Done)
    else Stepped(s, Failed(WriteManifestError))
  }

  /** The device details are read, completed and written back; without them nothing happens. */
  function FinishSidecar(files: Files, p: Path, o: Outside): Files {
    if p in files && p !in o.blocked then files[p := o.sidecar] else files
  }

  function CloseCurrent(s: Store, o: Outside): Stepped {
    match s.current
    case None => Stepped(s, Failed(NoCurrentEntry))
    case Some(i) =>
      Stepped(s.(current := None, files := FinishSidecar(s.files, PathOf(s.dir, s.entries[i], Meta), o)), Done)
  }

  datatype Removal = Removal(files: Files, complete: bool)

  /** Remove files in order, passing over those already gone, until one cannot be removed. */
  function RemoveFiles(files: Files, paths: seq<Path>, stuck: set<Path>): (r: Removal)
    ensures r.files.Keys <= files.Keys
    ensures forall p :: p in r.files ==> r.files[p] == files[p]
    ensures forall p :: p in files && p !in paths ==> p in r.files
    ensures r.complete <==> forall p :: p in paths && p in files ==> p !in stuck
    ensures r.complete ==> forall p :: p in r.files ==> p !in paths
  {
    if paths == [] then Removal(files, true)
    else
      assert paths == [paths[0]] + paths[1..];
      if paths[0] in files && paths[0] in stuck then Removal(files, false)
      else RemoveFiles(files - {paths[0]}, paths[1..], stuck)
  }

  function Without(entries: seq<ManifestEntry>, i: nat): seq<ManifestEntry>
    requires i < |entries|
  {
    entries[..i] + entries[i + 1..]
  }

  /** Drop entry `i`, keeping the current index on the same entry. */
  function DropEntry(s: Store, i: nat, o: Outside): Store
    requires i < |s.entries|
  {
    match s.current
    case Some(c) =>
      if c == i then CloseCurrent(s, o).store.(entries := Without(s.entries, i))
      else if c > i then s.(current := Some(c - 1), entries := Without(s.entries, i))
      else s.(entries := Without(s.entries, i))
    case None => s.(entries := Without(s.entries, i))
  }

  function DeleteEntry(s: Store, name: string, o: Outside): Stepped {
    match FindEntry(s.entries, name)
    case None => Stepped(s, Failed(NoSuchEntryError))
    case Some(i) =>
      var removal := RemoveFiles(s.files, EntryPaths(s.dir, s.entries[i]), o.stuck);
      var s1 := s.(files := removal.files);
      if !removal.complete then Stepped(s1, Failed(DeleteFileError))
      else SaveManifest(DropEntry(s1, i, o), o)
  }

  datatype Sweep = Sweep(files: Files, kept: seq<ManifestEntry>)

  /** Remove the files of every entry; an entry with a file left is kept. */
  function SweepEntries(files: Files, dir: string, entries: seq<ManifestEntry>, stuck: set<Path>): Sweep {
    if entries == [] then Sweep(files, [])
    else
      var removal := RemoveFiles(files, EntryPaths(dir, entries[0]), stuck);
      var rest := SweepEntries(removal.files, dir, entries[1..], stuck);
      Sweep(rest.files, (if removal.complete then [] else [entries[0]]) + rest.kept)
  }

  function DeleteAllEntries(s: Store, o: Outside): Stepped {
    var s1 := if s.current.Some? then CloseCurrent(s, o).store else s;
    var sweep := SweepEntries(s1.files, s1.dir, s1.entries, o.stuck);
    SaveManifest(s1.(files := sweep.files, entries := sweep.kept), o)
  }

  const MAX_ATTEMPTS: nat := 1024

  function FreshEntry(seconds: int, sequence: nat): ManifestEntry {
    ManifestEntry(EntryName(seconds, sequence), seconds, None, 0, None, None, true, None, None)
  }

  predicate Creatable(files: Files, p: Path, o: Outside) {
    p !in files && p !in o.blocked
  }

  /** Claim a name by creating its capture file exclusively, then the companions. */
  function ClaimName(s: Store, o: Outside, attempt: nat): (r: Stepped)
    requires s.current.None?
    ensures r.outcome == Done ==> r.store.current.Some?
    decreases MAX_ATTEMPTS - attempt
  {
    if attempt >= MAX_ATTEMPTS then Stepped(s, Failed(CreateFileError))
    else
      var e := FreshEntry(o.clock(attempt), s.nextSequence);
      var s1 := s.(nextSequence := s.nextSequence + 1);
      if CapturePath(s.dir, e) in s.files then ClaimName(s1, o, attempt + 1)
      else CreateFiles(s1, e, o)
  }

  function CreateFiles(s: Store, e: ManifestEntry, o: Outside): Stepped
    requires s.current.None?
  {
    var qmdl, analysis, gps := CapturePath(s.dir, e), PathOf(s.dir, e, Analysis), PathOf(s.dir, e, Gps);
    if !Creatable(s.files, qmdl, o) then Stepped(s, Failed(CreateFileError))
    else
      var s1 := s.(files := s.files[qmdl := []]);
      if !Creatable(s1.files, analysis, o) then Stepped(s1, Failed(CreateFileError))
      else
        var s2 := s1.(files := s1.files[analysis := []]);
        if !Creatable(s2.files, gps, o) then Stepped(s2, Failed(CreateFileError))
        else
          SaveManifest(s2.(files := s2.files[gps := []], entries := s.entries + [e], current := Some(|s.entries|)), o)
  }

  function NewEntry(s: Store, o: Outside): (r: Stepped)
    ensures r.outcome == Done ==> r.store.current.Some?
  {
    ClaimName(if s.current.Some? then CloseCurrent(s, o).store else s, o, 0)
  }

  function ReplaceEntry(s: Store, i: nat, e: ManifestEntry): Store
    requires i < |s.entries|
  {
    s.(entries := s.entries[i := e])
  }

  function UpdateCurrentSize(s: Store, size: nat, o: Outside): Stepped {
    match s.current
    case None => Stepped(s, Failed(NoCurrentEntry))
    case Some(i) =>
      SaveManifest(ReplaceEntry(s, i, s.entries[i].(qmdlSize := size, lastMessageTime := Some(o.now))), o)
  }

  function SetStopReason(s: Store, reason: string, o: Outside): Stepped {
    match s.current
    case None => Stepped(s, Done)
    case Some(i) => SaveManifest(ReplaceEntry(s, i, s.entries[i].(stopReason := Some(reason))), o)
  }

  function Annotate(s: Store, name: string, displayName: Option<string>, notes: Option<string>, o: Outside): Stepped {
    match FindEntry(s.entries, name)
    case None => Stepped(s, Failed(NoSuchEntryError))
    case Some(i) =>
      SaveManifest(ReplaceEntry(s, i, s.entries[i].(displayName := displayName, notes := notes)), o)
  }

  function MarkUploaded(s: Store, name: string, o: Outside): Stepped {
    match FindEntry(s.entries, name)
    case None => Stepped(s, Failed(NoSuchEntryError))
    case Some(i) => SaveManifest(ReplaceEntry(s, i, s.entries[i].(uploadTime := Some(o.now))), o)
  }

  function Age(e: ManifestEntry, now: int): int {
    now - (match e.lastMessageTime case Some(t) => t case None => e.startTime)
  }

  predicate Uploadable(s: Store, e: ManifestEntry, minAge: int, now: int) {
    !IsCurrent(s, e.name) && e.uploadTime.None? && Age(e, now) > minAge
  }

  /** The oldest uploadable entry among the first `n`; of equals, the last. */
  function OldestUploadable(s: Store, n: nat, minAge: int, now: int): (r: Option<nat>)
    requires n <= |s.entries|
    ensures r.Some? ==> r.value < n && Uploadable(s, s.entries[r.value], minAge, now)
    ensures r.Some? ==> forall j :: 0 <= j < n && Uploadable(s, s.entries[j], minAge, now) ==>
              Age(s.entries[j], now) <= Age(s.entries[r.value], now)
    ensures r.None? ==> forall j :: 0 <= j < n ==> !Uploadable(s, s.entries[j], minAge, now)
  {
    if n == 0 then None
    else
      var e, before := s.entries[n - 1], OldestUploadable(s, n - 1, minAge, now);
      if !Uploadable(s, e, minAge, now) then before
      else if before.Some? && Age(s.entries[before.value], now) > Age(e, now) then before
      else Some(n - 1)
  }

  function NextUnuploaded(s: Store, minAge: int, now: int): Option<string> {
    match OldestUploadable(s, |s.entries|, minAge, now)
    case None => None
    case Some(i) => Some(s.entries[i].name)
  }
}
