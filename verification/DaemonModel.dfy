/** The recording daemon as a state machine: the diag task with its open writer, the store
    it records into and the upload worker that shares the store. One step is one message,
    one container, or one locked section of the worker. */
module DaemonModel {
  import opened Options
  import opened Names
  import opened StoreModel
  import opened CleanupModel
  import opened RecoveryModel

  /** Event severity: 0 informational, 1 low, 2 medium, 3 high. */
  type Severity = n: nat | n <= 3

  datatype Display = ShowRecording | ShowPaused | ShowWarning(severity: Severity)

  /** The open capture and report files of the recording being made. */
  datatype Writer = Writer(capture: Path, report: Path)

  datatype Config = Config(
    minStartMb: nat,
    minContinueMb: nat,
    autoDelete: bool,
    uploads: bool,
    maxBytes: Option<nat>,
    maxDuration: Option<nat>,
    fixedPosition: Option<Block>)

  datatype Task = Task(
    writer: Option<Writer>,
    maxTypeSeen: Severity,
    bytesSinceCheck: nat,
    lowSpaceWarned: bool,
    stoppedByUser: bool,
    startedAt: Option<nat>,
    shown: seq<Display>,     // every state sent to the display, in order
    finished: seq<string>)   // every RecordingFinished sent to the analysis thread

  datatype UploadResult = NotSent | Absent(path: Path) | Sent(path: Path, data: FileData)
  datatype Upload = Upload(name: string, results: map<FileKind, UploadResult>)

  datatype Daemon = Daemon(store: Store, task: Task, upload: Option<Upload>)

  datatype Container = Container(
    userSpace: bool,
    size: nat,
    block: Block,
    written: bool,               // whether writing the block succeeds
    torn: FileData,              // what a failed write leaves behind
    fileSize: Option<nat>,       // the size of the capture, if it could be read
    report: FileData,            // the rows analysis appends
    severity: Option<Severity>)  // the worst event found, None if analysis failed

  const DISK_CHECK_BYTES_INTERVAL: nat := 256 * 1024

  datatype SpaceCheck = Enough | Low(mb: nat) | Critical(mb: nat) | Unknown

  function CheckSpace(cfg: Config, s: Store, o: Outside): SpaceCheck {
    match o.freeMb(s.files)
    case None => SpaceCheck.Unknown
    case Some(mb) =>
      if mb < cfg.minContinueMb then Critical(mb)
      else if mb < cfg.minStartMb then Low(mb)
      else Enough
  }

  predicate IsRecording(d: Daemon) { d.task.writer.Some? }

  /** The display task starts out showing Recording. */
  function Shown(t: Task): Display {
    if t.shown == [] then ShowRecording else t.shown[|t.shown| - 1]
  }

  function Show(d: Daemon, display: Display): Daemon {
    d.(task := d.task.(shown := d.task.shown + [display]))
  }

  /** Writing through a handle whose file is gone leaves nothing behind. */
  function Append(files: Files, p: Path, data: FileData): Files {
    if p in files then files[p := files[p] + data] else files
  }

  /** Opening for append creates the file if need be. */
  function AppendOrCreate(files: Files, p: Path, block: Block): Files {
    files[p := (if p in files then files[p] else []) + [block]]
  }

  function StopWriting(d: Daemon, o: Outside): Daemon {
    match d.task.writer
    case None => d
    case Some(w) =>
      var s := d.store.(files := Append(d.store.files, w.capture, o.trailer));
      var s' := if o.closedSize.Some? then UpdateCurrentSize(s, o.closedSize.value, o).store else s;
      d.(store := s', task := d.task.(writer := None))
  }

  function FinishEntry(d: Daemon, reason: Option<string>, o: Outside): Daemon {
    var d1 := StopWriting(d, o);
    var s := if reason.Some? then SetStopReason(d1.store, reason.value, o).store else d1.store;
    var finished := match CurrentEntry(s) case None => [] case Some(e) => [e.name];
    d1.(store := CloseCurrent(s, o).store,
        task := d1.task.(startedAt := None, finished := d1.task.finished + finished))
  }

  function Stop(d: Daemon, reason: Option<string>, o: Outside): Daemon {
    Show(FinishEntry(d, reason, o), ShowPaused)
  }

  datatype Started = Started(daemon: Daemon, outcome: Outcome)

  function MakeRoomToStart(cfg: Config, d: Daemon, o: Outside): Daemon {
    var check := CheckSpace(cfg, d.store, o);
    if cfg.autoDelete && (check.Low? || check.Critical?) then
      d.(store := Prune(d.store, cfg.minStartMb, cfg.uploads, o).store)
    else d
  }

  /** The fixed position goes into the position file, the device details into theirs. */
  function Companions(cfg: Config, files: Files, gps: Path, meta: Path, o: Outside): Files {
    var f := if cfg.fixedPosition.Some? then AppendOrCreate(files, gps, cfg.fixedPosition.value) else files;
    if meta in o.blocked then f else f[meta := o.sidecar]
  }

  /** The companion files and the report header go down before the recording counts as running. */
  function BeginWriting(cfg: Config, d: Daemon, o: Outside): Started
    requires d.store.current.Some?
  {
    var e := d.store.entries[d.store.current.value];
    var dir := d.store.dir;
    var gps, meta := PathOf(dir, e, Gps), PathOf(dir, e, Meta);
    var w := Writer(CapturePath(dir, e), PathOf(dir, e, Analysis));
    if cfg.fixedPosition.Some? && gps in o.blocked then Started(d, Failed(CreateFileError))
    else if cfg.fixedPosition.Some? && gps in o.unwritable then Started(d, Failed(WriteFileError))
    else
      var files := Companions(cfg, d.store.files, gps, meta, o);
      if w.report in o.unwritable then Started(d.(store := d.store.(files := files)), Failed(WriteFileError))
      else
        var d' := d.(store := d.store.(files := Append(files, w.report, o.header)),
                     task := d.task.(writer := Some(w), startedAt := Some(o.tick)));
        Started(Show(d', ShowRecording), Done)
  }

  function StartInner(cfg: Config, d: Daemon, o: Outside): Started {
    var d0 := d.(task := d.task.(maxTypeSeen := 0, bytesSinceCheck := 0, lowSpaceWarned := false));
    var d1 := MakeRoomToStart(cfg, d0, o);
    match CheckSpace(cfg, d1.store, o)
    case Critical(mb) => Started(d1, Failed(InsufficientDiskSpace(mb, cfg.minContinueMb)))
    case Low(mb) => Started(d1, Failed(InsufficientDiskSpace(mb, cfg.minStartMb)))
    case _ =>
      var d2 := if IsRecording(d1) then FinishEntry(d1, None, o) else d1;
      var r := NewEntry(d2.store, o);
      if r.outcome != Done then Started(d2.(store := r.store), r.outcome)
      else BeginWriting(cfg, d2.(store := r.store), o)
  }

  function Start(cfg: Config, d: Daemon, o: Outside): Started {
    var r := StartInner(cfg, d, o);
    if r.outcome == Done then r else Started(Show(r.daemon, ShowPaused), r.outcome)
  }

  function Rotate(cfg: Config, d: Daemon, o: Outside): Daemon {
    var carried := d.task.maxTypeSeen;
    var r := Start(cfg, FinishEntry(d, Some(o.wording), o), o);
    if r.outcome != Done then Stop(r.daemon, Some(o.wording), o)
    else
      var d' := r.daemon.(task := r.daemon.task.(maxTypeSeen := carried));
      if carried > 0 then Show(d', ShowWarning(carried)) else d'
  }

  function SwitchStore(cfg: Config, d: Daemon, dir: string, look: Look, o: Outside): Started {
    if d.store.dir == dir then
      if IsRecording(d) then Start(cfg, FinishEntry(d, Some(o.wording), o), o)
      else if !d.task.stoppedByUser then Start(cfg, d, o)
      else Started(d, Done)
    else
      var d1 := if IsRecording(d) then FinishEntry(d, Some(o.wording), o) else d;
      var moved := OpenOrRecover(d1.store, dir, look, o);
      if moved.outcome != Done then
        Started(if IsRecording(d) then Start(cfg, d1, o).daemon else d1, moved.outcome)
      else
        var d2 := d1.(store := moved.store);
        if IsRecording(d) || !d.task.stoppedByUser then Start(cfg, d2, o) else Started(d2, Done)
  }

  datatype Checked = Checked(daemon: Daemon, stopped: bool)

  /** Every so many bytes the free space is looked at: too little stops the recording,
      little makes room if that is allowed. */
  function CheckRoom(cfg: Config, d: Daemon, o: Outside): Checked {
    if d.task.bytesSinceCheck < DISK_CHECK_BYTES_INTERVAL then Checked(d, false)
    else
      var d0 := d.(task := d.task.(bytesSinceCheck := 0));
      match CheckSpace(cfg, d.store, o)
      case Critical(_) => Checked(Stop(d0, Some(o.wording), o), true)
      case Low(_) =>
        var pruned := if cfg.autoDelete then Prune(d0.store, cfg.minStartMb, cfg.uploads, o) else Pruned(d0.store, 0);
        Checked(d0.(store := pruned.store, task := d0.task.(lowSpaceWarned := pruned.removed == 0)), false)
      case _ => Checked(d0, false)
  }

  predicate LimitReached(cfg: Config, t: Task, c: Container, o: Outside) {
    || (c.fileSize.Some? && cfg.maxBytes.Some? && c.fileSize.value >= cfg.maxBytes.value)
    || (cfg.maxDuration.Some? && t.startedAt.Some? && o.tick - t.startedAt.value >= cfg.maxDuration.value)
  }

  /** Fold the outcome of analysing a container into what has been seen. */
  function Analysed(d: Daemon, w: Writer, c: Container): Daemon {
    var severity: Severity := if c.severity.Some? then c.severity.value else 0;
    var d1 := d.(store := d.store.(files := Append(d.store.files, w.report, c.report)),
                 task := d.task.(bytesSinceCheck := d.task.bytesSinceCheck + c.size));
    if severity > d.task.maxTypeSeen then
      Show(d1.(task := d1.task.(maxTypeSeen := severity)), ShowWarning(severity))
    else d1
  }

  function WriteContainer(cfg: Config, d: Daemon, w: Writer, c: Container, o: Outside): Daemon {
    if !c.written then
      Stop(d.(store := d.store.(files := Append(d.store.files, w.capture, c.torn))), Some(o.wording), o)
    else
      var s := d.store.(files := Append(d.store.files, w.capture, [c.block]));
      var r := if c.fileSize.Some? then UpdateCurrentSize(s, c.fileSize.value, o) else Stepped(s, Done);
      var d1 := d.(store := r.store);
      if r.outcome != Done then Stop(d1, Some(o.wording), o)
      else
        var d2 := Analysed(d1, w, c);
        if LimitReached(cfg, d.task, c, o) then Rotate(cfg, d2, o) else d2
  }

  function ProcessContainer(cfg: Config, d: Daemon, c: Container, o: Outside): Daemon {
    if !c.userSpace then d
    else
      match d.task.writer
      case None => d
      case Some(w) =>
        var checked := CheckRoom(cfg, d, o);
        if checked.stopped then checked.daemon else WriteContainer(cfg, checked.daemon, w, c, o)
  }

  function GpsUpdate(d: Daemon, position: Block, o: Outside): Daemon {
    match CurrentEntry(d.store)
    case None => d
    case Some(e) =>
      var gps := PathOf(d.store.dir, e, Gps);
      if gps in o.blocked || gps in o.unwritable then d
      else d.(store := d.store.(files := AppendOrCreate(d.store.files, gps, position)))
  }

  function DeleteRecording(d: Daemon, name: string, o: Outside): Daemon {
    var d1 := if IsCurrent(d.store, name) then Stop(d, None, o) else d;
    d1.(store := DeleteEntry(d1.store, name, o).store)
  }

  function DeleteAllRecordings(d: Daemon, o: Outside): Daemon {
    var d1 := Stop(d, None, o);
    d1.(store := DeleteAllEntries(d1.store, o).store)
  }

  function PickUpload(d: Daemon, minAge: int, o: Outside): Daemon {
    if d.upload.Some? then d
    else
      match NextUnuploaded(d.store, minAge, o.now)
      case None => d
      case Some(name) => d.(upload := Some(Upload(name, map[])))
  }

  function TryUpload(s: Store, name: string, kind: FileKind, accepted: bool, o: Outside): UploadResult {
    match FindEntry(s.entries, name)
    case None => NotSent
    case Some(i) =>
      var p := PathOf(s.dir, s.entries[i], kind);
      if p !in s.files then Absent(p)
      else if p in o.blocked || !accepted then NotSent
      else Sent(p, s.files[p])
  }

  function UploadFile(d: Daemon, kind: FileKind, accepted: bool, o: Outside): Daemon {
    if d.upload.None? || kind in d.upload.value.results then d
    else
      var u := d.upload.value;
      var result := TryUpload(d.store, u.name, kind, accepted, o);
      d.(upload := Some(u.(results := u.results[kind := result])))
  }

  predicate AllTried(u: Upload) { forall kind :: kind in ALL_KINDS ==> kind in u.results }

  predicate AllSent(u: Upload) {
    forall kind :: kind in ALL_KINDS ==> kind in u.results && !u.results[kind].NotSent?
  }

  function FinishUpload(d: Daemon, deleteAfter: bool, o: Outside): Daemon {
    if d.upload.None? || !AllTried(d.upload.value) then d
    else
      var u, d1 := d.upload.value, d.(upload := None);
      if !AllSent(u) then d1
      else if deleteAfter then d1.(store := DeleteEntry(d.store, u.name, o).store)
      else d1.(store := MarkUploaded(d.store, u.name, o).store)
  }

  datatype Event =
    | StartRecording
    | StopRecording
    | Switch(dir: string, look: Look)
    | Delete(name: string)
    | DeleteAll
    | Position(fix: Block)
    | Capture(container: Container)
    | Label(name: string, displayName: Option<string>, notes: Option<string>)
    | Reanalysed(path: Path, report: FileData)
    | Pick(minAge: int)
    | Put(kind: FileKind, accepted: bool)
    | Conclude(deleteAfter: bool)

  datatype Step = Step(event: Event, o: Outside)

  /** Re-analysis rewrites a report through a handle it holds, wherever that file is. */
  function Reanalyse(s: Store, p: Path, report: FileData): Store {
    if p in s.files && IsReport(p.file) then s.(files := s.files[p := report]) else s
  }

  function Next(cfg: Config, d: Daemon, step: Step): Daemon {
    var o := step.o;
    match step.event
    case StartRecording => Start(cfg, d.(task := d.task.(stoppedByUser := false)), o).daemon
    case StopRecording => Stop(d.(task := d.task.(stoppedByUser := true)), None, o)
    case Switch(dir, look) => SwitchStore(cfg, d, dir, look, o).daemon
    case Delete(name) => DeleteRecording(d, name, o)
    case DeleteAll => DeleteAllRecordings(d, o)
    case Position(fix) => GpsUpdate(d, fix, o)
    case Capture(c) => ProcessContainer(cfg, d, c, o)
    case Label(name, displayName, notes) => d.(store := Annotate(d.store, name, displayName, notes, o).store)
    case Reanalysed(path, report) => d.(store := Reanalyse(d.store, path, report))
    case Pick(minAge) => PickUpload(d, minAge, o)
    case Put(kind, accepted) => UploadFile(d, kind, accepted, o)
    case Conclude(deleteAfter) => FinishUpload(d, deleteAfter, o)
  }

  function Run(cfg: Config, d: Daemon, steps: seq<Step>): Daemon
    decreases |steps|
  {
    if steps == [] then d else Run(cfg, Next(cfg, d, steps[0]), steps[1..])
  }
}
