/** The step-up gate as the program has it: two maps, inserted into, weeded and updated in place. */
module StepUpGate {
  import opened Clock
  import opened Options
  import opened Numerals
  import opened StepUpModel

  class StepUp {
    var pending: map<string, Pending>
    var windows: map<string, Window>

    constructor ()
      ensures View() == State(map[], map[])
    {
      pending, windows := map[], map[];
    }

    function View(): State
      reads this
    {
      State(pending, windows)
    }

    method Weed(now: Instant)
      modifies `pending
      ensures pending == Fresh(old(pending), now)
    {
      pending := map device | device in pending && Elapsed(pending[device].started, now) < CODE_TTL :: pending[device];
    }

    method Start(device: string, random: Option<nat>, now: Instant) returns (response: Response)
      modifies `pending
      ensures Answered(View(), response) == StepUpModel.Start(old(View()), device, random, now)
    {
      if random.None? {
        return Refused(Expired);
      }
      Weed(now);
      pending := pending[device := Pending(NewCode(random.value), now, 0)];
      response := Granted;
    }

    method OpenWindow(device: string, now: Instant)
      modifies `windows
      ensures View() == StepUpModel.OpenWindow(old(View()), device, now)
    {
      windows := windows[device := Window(now, now)];
    }

    /** A wrong code is counted; the right one, or the last wrong one, takes the request away. */
    method Confirm(device: string, typed: string, now: Instant, later: Instant) returns (response: Response)
      modifies this
      ensures Answered(View(), response) == StepUpModel.Confirm(old(View()), device, typed, now, later)
    {
      hide Fresh;
      var code := Digits(typed);
      Weed(now);
      if device !in pending {
        return Refused(NoPending);
      }
      if pending[device].code == code {
        pending := pending - {device};
        OpenWindow(device, later);
        return Granted;
      }
      var p := pending[device];
      pending := pending[device := p.(wrong := p.wrong + 1)];
      if p.wrong + 1 >= MAX_WRONG {
        pending := pending - {device};
        response := Refused(TooManyWrong);
      } else {
        response := Refused(WrongCode(MAX_WRONG - (p.wrong + 1)));
      }
    }

    /** The latest started of the waiting requests, looking at them in any order. */
    method Newest() returns (newest: Option<string>)
      ensures MayConfirm(pending, newest)
    {
      newest := None;
      var rest := pending.Keys;
      while rest != {}
        invariant rest <= pending.Keys
        invariant newest.None? ==> rest == pending.Keys
        invariant newest.Some? ==> newest.value in pending
        invariant newest.Some? ==> forall other :: other in pending && other !in rest ==>
                    pending[other].started <= pending[newest.value].started
        decreases |rest|
      {
        var device :| device in rest;
        rest := rest - {device};
        if newest.None? || pending[device].started >= pending[newest.value].started {
          newest := Some(device);
        }
      }
    }

    method ButtonPressed(now: Instant, later: Instant) returns (confirmed: bool, newest: Option<string>)
      modifies this
      ensures MayConfirm(Fresh(old(pending), now), newest) && confirmed == newest.Some?
      ensures View() == Press(old(View()), newest, now, later).state
    {
      Weed(now);
      newest := Newest();
      confirmed := newest.Some?;
      if newest.Some? {
        pending := pending - {newest.value};
        OpenWindow(newest.value, later);
      }
    }

    method Active(device: string, now: Instant) returns (live: bool)
      modifies `windows
      ensures live == IsActive(old(View()), device, now) && View() == Ask(old(View()), device, now)
    {
      live := false;
      if device in windows {
        live := now < ExpiresAt(windows[device]);
      }
      if !live {
        windows := windows - {device};
      }
    }

    method Extend(device: string, now: Instant)
      modifies `windows
      ensures View() == StepUpModel.Extend(old(View()), device, now)
    {
      if device in windows {
        windows := windows[device := windows[device].(lastUsed := now)];
      }
    }

    method End(device: string)
      modifies `windows
      ensures View() == StepUpModel.End(old(View()), device)
    {
      windows := windows - {device};
    }
  }
}
