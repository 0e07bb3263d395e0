/** What the display shows of a recording: the worst severity found since it was started by
    hand, across rotations; and when a start leaves display and recording in agreement. */
module DisplayedSeverity {
  import opened Options
  import opened Names
  import opened StoreModel
  import opened StoreLemmas
  import opened CleanupModel
  import opened RecoveryModel
  import opened DaemonModel

  function ShownSeverity(t: Task): Severity {
    match Shown(t) case ShowWarning(severity) => severity case _ => 0
  }

  /** While recording, the display shows the worst severity seen. */
  predicate DisplayTrue(d: Daemon) {
    IsRecording(d) ==> ShownSeverity(d.task) == d.task.maxTypeSeen
  }

  function Max(a: Severity, b: Severity): Severity { if a >= b then a else b }

  /** The severity a step's analysis reports, if it analyses anything. */
  function Found(event: Event): Severity {
    if event.Capture? && event.container.userSpace && event.container.severity.Some?
    then event.container.severity.value else 0
  }

  function WorstFound(steps: seq<Step>): Severity {
    if steps == [] then 0 else Max(Found(steps[0].event), WorstFound(steps[1..]))
  }

  predicate StaysInSegment(event: Event) { !event.StartRecording? && !event.Switch? }

  lemma StoppedShowsPaused(d: Daemon, reason: Option<string>, o: Outside)
    ensures var d' := Stop(d, reason, o);
            !IsRecording(d') && Shown(d'.task) == ShowPaused && d'.store.current.None?
  {
    hide UpdateCurrentSize, SetStopReason, Append;
  }

  /** A start that succeeds shows Recording and forgets earlier severities; one that fails
      shows Paused. */
  lemma StartShows(cfg: Config, d: Daemon, o: Outside)
    ensures var r := Start(cfg, d, o);
            if r.outcome == Done then
              IsRecording(r.daemon) && Shown(r.daemon.task) == ShowRecording && r.daemon.task.maxTypeSeen == 0
            else Shown(r.daemon.task) == ShowPaused
  {
    hide MakeRoomToStart, FinishEntry, NewEntry, Companions, Append;
    StartStarts(cfg, d, o);
  }

  lemma StartStarts(cfg: Config, d: Daemon, o: Outside)
    ensures var r := StartInner(cfg, d, o);
            && r.daemon.task.maxTypeSeen == 0
            && (r.outcome == Done ==> IsRecording(r.daemon) && Shown(r.daemon.task) == ShowRecording)
            && (IsRecording(r.daemon) && r.outcome != Done ==>
                  IsRecording(d) && RefusedForSpace(cfg, d, o) && r.daemon.task.writer == d.task.writer)
            && (RefusedForSpace(cfg, d, o) ==> r.outcome != Done && r.daemon.task.writer == d.task.writer)
  {
    hide Prune, UpdateCurrentSize, SetStopReason, CloseCurrent, NewEntry, Companions, Append, PathOf, CapturePath;
  }

  /** The space check of a start, after making what room it may, turns it down. */
  predicate RefusedForSpace(cfg: Config, d: Daemon, o: Outside) {
    var check := CheckSpace(cfg, MakeRoomToStart(cfg, d, o).store, o);
    check.Low? || check.Critical?
  }

  /** After a start the display and the recording agree, except exactly when a recording was
      running and the start was refused for space: it runs on behind a Paused display. */
  lemma StartAgreesExactly(cfg: Config, d: Daemon, o: Outside)
    ensures var d' := Start(cfg, d, o).daemon;
            (IsRecording(d') <==> Shown(d'.task) != ShowPaused) <==> !(IsRecording(d) && RefusedForSpace(cfg, d, o))
  {
    StartStarts(cfg, d, o);
    StartShows(cfg, d, o);
    hide StartInner, RefusedForSpace;
  }

  /** Rotation carries the severity over, or ends Stopped, shown Paused, with no current entry. */
  lemma RotationCarries(cfg: Config, d: Daemon, o: Outside)
    ensures var d' := Rotate(cfg, d, o);
            if IsRecording(d') then
              d'.task.maxTypeSeen == d.task.maxTypeSeen && ShownSeverity(d'.task) == d.task.maxTypeSeen
            else Shown(d'.task) == ShowPaused && d'.store.current.None?
  {
    hide Start, FinishEntry, Stop;
    var r := Start(cfg, FinishEntry(d, Some(o.wording), o), o);
    StartShows(cfg, FinishEntry(d, Some(o.wording), o), o);
    StoppedShowsPaused(r.daemon, Some(o.wording), o);
  }

  lemma FinishShowsNothing(d: Daemon, reason: Option<string>, o: Outside)
    ensures FinishEntry(d, reason, o).task.shown == d.task.shown && FinishEntry(d, reason, o).task.writer.None?
  {
    hide UpdateCurrentSize, SetStopReason, CloseCurrent, Append;
  }

  /** Within a rotation the display is briefly sent Recording before the warning again. */
  lemma RotationBlinks(cfg: Config, d: Daemon, o: Outside)
    requires IsRecording(Rotate(cfg, d, o)) && d.task.maxTypeSeen > 0
    ensures Rotate(cfg, d, o).task.shown == d.task.shown + [ShowRecording, ShowWarning(d.task.maxTypeSeen)]
  {
    var d1 := FinishEntry(d, Some(o.wording), o);
    FinishShowsNothing(d, Some(o.wording), o);
    StartAddsOne(cfg, d1, o);
    StartStarts(cfg, d1, o);
    hide StartInner, FinishEntry, Stop;
    StoppedShowsPaused(Start(cfg, d1, o).daemon, Some(o.wording), o);
  }

  lemma StartAddsOne(cfg: Config, d: Daemon, o: Outside)
    requires d.task.writer.None? && StartInner(cfg, d, o).outcome == Done
    ensures StartInner(cfg, d, o).daemon.task.shown == d.task.shown + [ShowRecording]
  {
    hide Prune, FinishEntry, NewEntry, Companions, Append;
  }

  // One step within a segment.

  lemma ContainerCarries(cfg: Config, d: Daemon, w: Writer, c: Container, o: Outside)
    requires DisplayTrue(d) && d.task.writer == Some(w)
    ensures var d' := WriteContainer(cfg, d, w, c, o);
            if IsRecording(d') then
              && d'.task.maxTypeSeen == Max(d.task.maxTypeSeen, if c.severity.Some? then c.severity.value else 0)
              && DisplayTrue(d')
            else Shown(d'.task) == ShowPaused && d'.store.current.None?
  {
    hide UpdateCurrentSize, Append, Rotate, Stop;
    var data := if c.written then [c.block] else c.torn;
    var d1 := d.(store := d.store.(files := Append(d.store.files, w.capture, data)));
    var d2 := d1.(store := if c.written && c.fileSize.Some? then UpdateCurrentSize(d1.store, c.fileSize.value, o).store
                           else d1.store);
    StoppedShowsPaused(d2, Some(o.wording), o);
    if c.written {
      AnalysisShows(d2, w, c);
      RotationCarries(cfg, Analysed(d2, w, c), o);
      hide Analysed;
    }
  }

  lemma AnalysisShows(d: Daemon, w: Writer, c: Container)
    requires ShownSeverity(d.task) == d.task.maxTypeSeen
    ensures var d' := Analysed(d, w, c);
            && d'.task.maxTypeSeen == Max(d.task.maxTypeSeen, if c.severity.Some? then c.severity.value else 0)
            && ShownSeverity(d'.task) == d'.task.maxTypeSeen && d'.task.writer == d.task.writer
  {
    hide Append;
  }

  lemma CheckRoomShows(cfg: Config, d: Daemon, o: Outside)
    ensures var c := CheckRoom(cfg, d, o);
            if c.stopped then !IsRecording(c.daemon) && Shown(c.daemon.task) == ShowPaused
              && c.daemon.store.current.None?
            else c.daemon.task == d.task.(bytesSinceCheck := c.daemon.task.bytesSinceCheck,
                                          lowSpaceWarned := c.daemon.task.lowSpaceWarned)
  {
    hide Stop, Prune;
    StoppedShowsPaused(d.(task := d.task.(bytesSinceCheck := 0)), Some(o.wording), o);
  }

  /** A step other than a start or a storage switch starts nothing; while recording goes on it
      adds what it found to what is seen and shown. */
  lemma SegmentStep(cfg: Config, d: Daemon, step: Step)
    requires DisplayTrue(d) && StaysInSegment(step.event)
    ensures var d' := Next(cfg, d, step);
            && DisplayTrue(d')
            && (IsRecording(d') ==>
                  IsRecording(d) && d'.task.maxTypeSeen == Max(d.task.maxTypeSeen, Found(step.event)))
  {
    hide Stop, WriteContainer, CheckRoom, DeleteEntry, DeleteAllEntries, Annotate, MarkUploaded, GpsUpdate;
    var o := step.o;
    match step.event
    case StopRecording => StoppedShowsPaused(d.(task := d.task.(stoppedByUser := true)), None, o);
    case Capture(c) =>
      if c.userSpace && d.task.writer.Some? {
        var checked := CheckRoom(cfg, d, o);
        CheckRoomShows(cfg, d, o);
        if !checked.stopped {
          ContainerCarries(cfg, checked.daemon, d.task.writer.value, c, o);
        }
      }
    case Position(fix) => assert GpsUpdate(d, fix, o).task == d.task by { PositionKeepsTask(d, fix, o); }
    case _ => StoppedShowsPaused(d, None, o);
  }

  lemma PositionKeepsTask(d: Daemon, fix: Block, o: Outside)
    ensures GpsUpdate(d, fix, o).task == d.task
  {
  }

  /** Over any run of such steps, while recording goes on the severity shown is the greatest of
      the one at the start and every one found since: it never drops. */
  lemma {:induction false} SegmentShowsTheWorst(cfg: Config, d: Daemon, steps: seq<Step>)
    requires DisplayTrue(d)
    requires forall i :: 0 <= i < |steps| ==> StaysInSegment(steps[i].event)
    ensures var d' := Run(cfg, d, steps);
            IsRecording(d') ==>
              && IsRecording(d)
              && ShownSeverity(d'.task) == d'.task.maxTypeSeen == Max(d.task.maxTypeSeen, WorstFound(steps))
    decreases |steps|
  {
    if steps != [] {
      SegmentStep(cfg, d, steps[0]);
      hide Next, StaysInSegment, Found;
      SegmentShowsTheWorst(cfg, Next(cfg, d, steps[0]), steps[1..]);
    }
  }

  /** Every step keeps the display true, also those that begin a segment. */
  lemma DisplayStaysTrue(cfg: Config, d: Daemon, step: Step)
    requires DisplayTrue(d)
    ensures DisplayTrue(Next(cfg, d, step))
  {
    if StaysInSegment(step.event) {
      SegmentStep(cfg, d, step);
    } else {
      hide Start, SwitchStore, DisplayTrue;
      match step.event
      case Switch(dir, look) => SwitchKeepsDisplay(cfg, d, dir, look, step.o);
      case _ => StartKeepsDisplay(cfg, d.(task := d.task.(stoppedByUser := false)), step.o);
    }
  }

  lemma NotRecordingIsTrue(d: Daemon)
    requires d.task.writer.None?
    ensures DisplayTrue(d)
  {
  }

  lemma SwitchKeepsDisplay(cfg: Config, d: Daemon, dir: string, look: Look, o: Outside)
    requires DisplayTrue(d)
    ensures DisplayTrue(SwitchStore(cfg, d, dir, look, o).daemon)
  {
    hide Start, FinishEntry, OpenOrRecover, DisplayTrue;
    var finished := FinishEntry(d, Some(o.wording), o);
    FinishShowsNothing(d, Some(o.wording), o);
    StartKeepsDisplay(cfg, d, o);
    StartKeepsDisplay(cfg, finished, o);
    var d1 := if IsRecording(d) then finished else d;
    var d2 := d1.(store := OpenOrRecover(d1.store, dir, look, o).store);
    StartKeepsDisplay(cfg, d2, o);
    NotRecordingIsTrue(d1);
    NotRecordingIsTrue(d2);
  }

  lemma StartKeepsDisplay(cfg: Config, d: Daemon, o: Outside)
    ensures DisplayTrue(Start(cfg, d, o).daemon)
  {
    StartShows(cfg, d, o);
    StartStarts(cfg, d, o);
    hide StartInner, RefusedForSpace;
  }
}
