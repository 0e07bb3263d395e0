/** What is written about a recording when it ends lands on that recording, also when the next one
    starts in the same step. */
module Finishing {
  import opened Options
  import opened Names
  import opened StoreModel
  import opened StoreLemmas
  import opened CleanupModel
  import opened Cleanup
  import opened DaemonModel
  import opened Lifecycle

  /** The entry with its final size and time, if the writer could be closed, and the reason, if
      there was one. */
  function Closed(e: ManifestEntry, reason: Option<string>, o: Outside): ManifestEntry {
    var sized := if o.closedSize.Some? then e.(qmdlSize := o.closedSize.value, lastMessageTime := Some(o.now)) else e;
    if reason.Some? then sized.(stopReason := reason) else sized
  }

  /** Finishing changes the entry of the recording that was being made and no other, names it to
      the analysis thread, and leaves nothing current. */
  lemma FinishLandsOnItsEntry(d: Daemon, reason: Option<string>, o: Outside)
    requires IsRecording(d) && d.store.current.Some?
    ensures var i, d' := d.store.current.value, FinishEntry(d, reason, o);
            && d'.store.entries == d.store.entries[i := Closed(d.store.entries[i], reason, o)]
            && d'.task.finished == d.task.finished + [d.store.entries[i].name]
            && d'.store.current.None? && !IsRecording(d')
  {
    hide FileName, Append, FinishSidecar;
    var i := d.store.current.value;
    var s := StopWriting(d, o).store;
    assert s.entries == d.store.entries[i := Closed(d.store.entries[i], None, o)];
  }

  /** A new entry goes behind the others, which stay as they are; it starts empty. */
  lemma NewEntryComesLast(s: Store, o: Outside)
    ensures var r := NewEntry(s, o);
            && s.entries <= r.store.entries && |r.store.entries| <= |s.entries| + 1
            && (r.outcome == Done ==>
                  && r.store.current == Some(|s.entries|) && |r.store.entries| == |s.entries| + 1
                  && var e := r.store.entries[|s.entries|];
                     e.qmdlSize == 0 && e.compressed && e.stopReason.None?)
  {
    hide CloseCurrent, ClaimName, Captures, CapturePath, FreshEntry;
    var s1 := if s.current.Some? then CloseCurrent(s, o).store else s;
    CloseCurrentIsHarmless(s, o);
    CloseCurrentKeeps(s, o);
    ClaimNameEffect(s1, o, 0);
    var r := ClaimName(s1, o, 0);
    if j: nat :| ClaimedAt(s1, r.store, o, 0, j) {
      FreshEntryIsEmpty(o.clock(j), s1.nextSequence + j);
    }
  }

  lemma FreshEntryIsEmpty(seconds: int, sequence: nat)
    ensures var e := FreshEntry(seconds, sequence); e.qmdlSize == 0 && e.compressed && e.stopReason.None?
  {
  }

  /** Starting over a recording that still runs: its final size lands on its own entry, where
      making room has left it, not on the new one behind it. */
  lemma StartFinishesTheOldEntry(cfg: Config, d: Daemon, o: Outside)
    requires WriterLinked(d) && IsRecording(d) && Start(cfg, d, o).outcome == Done
    ensures var roomy := MakeRoomToStart(cfg, d, o).store;
            var entries := Start(cfg, d, o).daemon.store.entries;
            && roomy.current.Some?
            && var i := roomy.current.value;
               && roomy.entries[i].name == d.store.entries[d.store.current.value].name
               && entries[..|entries| - 1] == roomy.entries[i := Closed(roomy.entries[i], None, o)]
               && entries[|entries| - 1].qmdlSize == 0
  {
    hide Start, MakeRoomToStart, FinishEntry, NewEntry, Closed, CapturePath, PathOf;
    var d1 := d.(store := MakeRoomToStart(cfg, d, o).store);
    StartInStages(cfg, d, o);
    RoomKeepsLive(cfg, d, o);
    FinishLandsOnItsEntry(d1, None, o);
    NewEntryComesLast(FinishEntry(d1, None, o).store, o);
  }

  /** A start that succeeds makes room, finishes what runs, claims a name and begins. */
  lemma StartInStages(cfg: Config, d: Daemon, o: Outside)
    requires IsRecording(d) && Start(cfg, d, o).outcome == Done
    ensures var finished := FinishEntry(d.(store := MakeRoomToStart(cfg, d, o).store), None, o);
            && NewEntry(finished.store, o).outcome == Done
            && Start(cfg, d, o).daemon.store.entries == NewEntry(finished.store, o).store.entries
  {
    var d0 := d.(task := d.task.(maxTypeSeen := 0, bytesSinceCheck := 0, lowSpaceWarned := false));
    var d1, d1' := MakeRoomToStart(cfg, d0, o), d.(store := MakeRoomToStart(cfg, d, o).store);
    assert d1.store == d1'.store && d1.task == d0.task;
    FinishOnlyWritesTheStore(d1, d1', o);
    hide MakeRoomToStart, FinishEntry, NewEntry;
    var d2 := FinishEntry(d1, None, o);
    var d3 := d2.(store := NewEntry(d2.store, o).store);
    if d3.store.current.Some? {
      BeginKeepsEntries(cfg, d3, o);
    }
    hide BeginWriting;
  }

  lemma FinishOnlyWritesTheStore(d: Daemon, d': Daemon, o: Outside)
    requires d.store == d'.store && d.task.writer == d'.task.writer
    ensures FinishEntry(d, None, o).store == FinishEntry(d', None, o).store
  {
    hide UpdateCurrentSize, SetStopReason, CloseCurrent, Append;
  }

  lemma RoomKeepsLive(cfg: Config, d: Daemon, o: Outside)
    ensures SameLive(d.store, MakeRoomToStart(cfg, d, o).store)
  {
    hide PruneNames, EntryVerdict, DeleteEntry, CapturePath, IsCapture;
    PruneEffect(d.store, EntryNames(d.store.entries), cfg.minStartMb, cfg.uploads, o);
  }

  lemma BeginKeepsEntries(cfg: Config, d: Daemon, o: Outside)
    requires d.store.current.Some?
    ensures BeginWriting(cfg, d, o).daemon.store.entries == d.store.entries
  {
    hide Companions, Append, FileName;
  }
}
