/** Opening a recording directory, and rebuilding its manifest from the captures in it. */
module RecoveryModel {
  import opened Options
  import opened Numerals
  import opened Names
  import opened Sorting
  import opened StoreModel

  datatype Metadata = Metadata(size: nat, modified: Option<int>)

  /** One name read from a directory; the name may not be text, the metadata unreadable. */
  datatype DirEntry = DirEntry(file: Option<string>, metadata: Option<Metadata>)

  datatype ManifestRead = Loads | Unparsable | Unreadable

  /** What looking at a directory finds besides the files themselves. */
  datatype Look = Look(
    reachable: bool,                    // whether existence could be checked at all
    dirExists: bool,
    creatable: bool,
    manifest: ManifestRead,
    listing: Option<seq<DirEntry>>)     // None when the directory cannot be read

  // The seconds chrono can represent as a date.
  const MIN_TIMESTAMP: int := -8334601228800
  const MAX_TIMESTAMP: int := 8210266876799

  /** `str::trim_end_matches`: strips the suffix as often as it occurs. */
  function TrimEnd(s: string, suffix: string): string
    requires suffix != ""
    decreases |s|
  {
    if EndsWith(s, suffix) then TrimEnd(s[..|s| - |suffix|], suffix) else s
  }

  /** `split('-').next()` */
  function BeforeHyphen(s: string): string {
    if s == "" || s[0] == '-' then "" else [s[0]] + BeforeHyphen(s[1..])
  }

  datatype CaptureName = CaptureName(stem: string, compressed: bool)

  function ParseCapture(file: string): Option<CaptureName> {
    if EndsWith(file, ".qmdl") then Some(CaptureName(TrimEnd(file, ".qmdl"), false))
    else if EndsWith(file, ".qmdl.gz") then Some(CaptureName(TrimEnd(file, ".qmdl.gz"), true))
    else None
  }

  function StartSeconds(stem: string): Option<int> {
    match ParseI64(BeforeHyphen(stem))
    case None => None
    case Some(seconds) => if MIN_TIMESTAMP <= seconds <= MAX_TIMESTAMP then Some(seconds) else None
  }

  function RecoverEntry(item: DirEntry): Option<ManifestEntry> {
    match item.file
    case None => None
    case Some(file) =>
      match ParseCapture(file)
      case None => None
      case Some(name) =>
        match StartSeconds(name.stem)
        case None => None
        case Some(seconds) =>
          if item.metadata.None? || item.metadata.value.modified.None? then None
          else
            Some(ManifestEntry(name.stem, seconds, item.metadata.value.modified, item.metadata.value.size,
                               None, None, name.compressed, None, None))
  }

  /** What `read` makes of the items it can read, in order. */
  function Collect<T, U>(items: seq<T>, read: T -> Option<U>): seq<U> {
    if items == [] then []
    else (match read(items[0]) case None => [] case Some(u) => [u]) + Collect(items[1..], read)
  }

  /** The recoverable entries in the order the directory lists them. */
  function RecoverListing(listing: seq<DirEntry>): seq<ManifestEntry> { Collect(listing, RecoverEntry) }

  const StartTime: ManifestEntry -> int := (e: ManifestEntry) => e.startTime

  function RecoveredEntries(listing: seq<DirEntry>): seq<ManifestEntry> {
    SortByKey(RecoverListing(listing), StartTime)
  }

  function OpenAs(s: Store, dir: string, entries: seq<ManifestEntry>): Store {
    s.(dir := dir, entries := entries, current := None)
  }

  function Recover(s: Store, dir: string, look: Look, o: Outside): Stepped {
    match look.listing
    case None => Stepped(s, Failed(OpenDirError))
    case Some(listing) =>
      var r := SaveManifest(OpenAs(s, dir, RecoveredEntries(listing)), o);
      if r.outcome == Done then r else Stepped(s, r.outcome)
  }

  /** Load the manifest; rebuild it when it is missing or does not parse; or start afresh.
      On failure the store stays where it was. */
  function OpenOrRecover(s: Store, dir: string, look: Look, o: Outside): Stepped {
    if !look.reachable then Stepped(s, Failed(OpenDirError))
    else if dir in s.manifests then
      match look.manifest
      case Loads => Stepped(OpenAs(s, dir, s.manifests[dir]), Done)
      case Unparsable => Recover(s, dir, look, o)
      case Unreadable => Stepped(s, Failed(ReadManifestError))
    else if look.dirExists then Recover(s, dir, look, o)
    else if !look.creatable then Stepped(s, Failed(OpenDirError))
    else
      var r := SaveManifest(OpenAs(s, dir, []), o);
      if r.outcome == Done then r else Stepped(s, r.outcome)
  }
}
