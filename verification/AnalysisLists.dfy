/** The analysis status as the program has it, an object changed in place under its lock. */
module AnalysisLists {
  import opened Options
  import opened AnalysisModel

  class AnalysisStatus {
    var queued: seq<string>
    var running: Option<string>
    var finished: seq<string>

    constructor (recordings: seq<string>)
      ensures View() == Status([], None, recordings)
    {
      queued, running, finished := [], None, recordings;
    }

    function View(): Status
      reads this
    {
      Status(queued, running, finished)
    }

    method QueueQmdl(name: string) returns (added: bool)
      modifies this
      ensures View() == Queue(old(View()), name) && added == Queues(old(View()), name)
    {
      if name in queued || running == Some(name) {
        return false;
      }
      queued := queued + [name];
      added := true;
    }

    /** The loop over the names ends with the first that was added. */
    method QueueAny(names: seq<string>) returns (added: bool)
      modifies this
      ensures View() == QueueFirst(old(View()), names) && added == (View() != old(View()))
    {
      added := false;
      var i := 0;
      while i < |names| && !added
        invariant i <= |names|
        invariant added ==> View() == QueueFirst(old(View()), names) && View() != old(View())
        invariant !added ==> View() == old(View())
                             && QueueFirst(old(View()), names) == QueueFirst(old(View()), names[i..])
        decreases |names| - i
      {
        assert names[i..][0] == names[i] && names[i..][1..] == names[i + 1..];
        added := QueueQmdl(names[i]);
        i := i + 1;
      }
    }

    /** Whether a wake-up is to be sent. */
    method StartAnalysis(name: string, entries: seq<string>, current: Option<nat>) returns (wake: bool)
      requires current.Some? ==> current.value < |entries|
      modifies this
      ensures View() == Request(old(View()), name, entries, current) && wake == (View() != old(View()))
    {
      if name == "" {
        wake := QueueAny(Candidates(entries, current));
      } else {
        wake := QueueQmdl(name);
      }
    }

    method DequeueToRunning() returns (name: string)
      requires queued != [] && running.None?
      modifies this
      ensures View() == Dequeue(old(View())) && name == old(queued)[0]
    {
      name := queued[0];
      queued := queued[1..];
      running := Some(name);
    }

    method FinishRunningAnalysis()
      requires running.Some?
      modifies this
      ensures View() == FinishRunning(old(View()))
    {
      var name := running.value;
      running := None;
      finished := finished + [name];
    }

    method RecordingFinished(name: string)
      modifies this
      ensures View() == old(View()).(finished := old(finished) + [name])
    {
      finished := finished + [name];
    }

    /** One wake-up with nobody else about: as many names as were counted, in order. */
    method RunBatch(count: nat)
      requires running.None? && count <= |queued|
      modifies this
      ensures View() == Status(old(queued)[count..], None, old(finished) + old(queued)[..count])
    {
      for i := 0 to count
        invariant View() == Status(old(queued)[i..], None, old(finished) + old(queued)[..i])
      {
        var _ := DequeueToRunning();
        FinishRunningAnalysis();
      }
    }
  }
}
