/** The second gate in front of the terminal: a code shown on the unit opens a short window. */
module StepUpModel {
  import opened Clock
  import opened Options
  import opened Numerals

  const CODE_TTL: nat := 60 * SECOND
  const WINDOW: nat := 5 * 60 * SECOND
  const HARD_CAP: nat := 30 * 60 * SECOND
  const MAX_WRONG: nat := 3

  datatype Pending = Pending(code: string, started: Instant, wrong: nat)
  datatype Window = Window(since: Instant, lastUsed: Instant)
  datatype State = State(pending: map<string, Pending>, windows: map<string, Window>)

  datatype StepUpError = NoPending | Expired | WrongCode(attemptsLeft: nat) | TooManyWrong

  datatype Response = Granted | Refused(error: StepUpError)

  datatype Answered = Answered(state: State, response: Response)

  function ExpiresAt(w: Window): Instant {
    if w.lastUsed + WINDOW <= w.since + HARD_CAP then w.lastUsed + WINDOW else w.since + HARD_CAP
  }

  /** Four digits of a random number. */
  function NewCode(random: nat): (code: string)
    ensures |code| == 4 && AllDigits(code)
  {
    [DigitChar(random / 1000 % 10), DigitChar(random / 100 % 10), DigitChar(random / 10 % 10), DigitChar(random % 10)]
  }

  function Fresh(pending: map<string, Pending>, now: Instant): map<string, Pending> {
    map device | device in pending && Elapsed(pending[device].started, now) < CODE_TTL :: pending[device]
  }

  function Start(s: State, device: string, random: Option<nat>, now: Instant): Answered {
    match random
    case None => Answered(s, Refused(Expired))
    case Some(n) => Answered(s.(pending := Fresh(s.pending, now)[device := Pending(NewCode(n), now, 0)]), Granted)
  }

  function OpenWindow(s: State, device: string, now: Instant): State {
    s.(windows := s.windows[device := Window(now, now)])
  }

  function Confirm(s: State, device: string, typed: string, now: Instant, later: Instant): Answered {
    var s1 := s.(pending := Fresh(s.pending, now));
    if device !in s1.pending then Answered(s1, Refused(NoPending))
    else
      var p := s1.pending[device];
      if p.code == Digits(typed) then
        Answered(OpenWindow(s1.(pending := s1.pending - {device}), device, later), Granted)
      else if p.wrong + 1 >= MAX_WRONG then
        Answered(s1.(pending := s1.pending - {device}), Refused(TooManyWrong))
      else
        Answered(s1.(pending := s1.pending[device := p.(wrong := p.wrong + 1)]),
                 Refused(WrongCode(MAX_WRONG - (p.wrong + 1))))
  }

  /** The newest request waiting; of several just as new, any. */
  predicate IsNewest(pending: map<string, Pending>, device: string) {
    device in pending && forall other :: other in pending ==> pending[other].started <= pending[device].started
  }

  predicate MayConfirm(pending: map<string, Pending>, newest: Option<string>) {
    match newest case None => pending.Keys == {} case Some(device) => IsNewest(pending, device)
  }

  function Press(s: State, newest: Option<string>, now: Instant, later: Instant): Answered {
    var s1 := s.(pending := Fresh(s.pending, now));
    match newest
    case None => Answered(s1, Refused(NoPending))
    case Some(device) => Answered(OpenWindow(s1.(pending := s1.pending - {device}), device, later), Granted)
  }

  predicate IsActive(s: State, device: string, now: Instant) {
    device in s.windows && now < ExpiresAt(s.windows[device])
  }

  /** Asking drops a window that has lapsed. */
  function Ask(s: State, device: string, now: Instant): State {
    if IsActive(s, device, now) then s else s.(windows := s.windows - {device})
  }

  function Extend(s: State, device: string, now: Instant): State {
    if device in s.windows then s.(windows := s.windows[device := s.windows[device].(lastUsed := now)]) else s
  }

  function End(s: State, device: string): State { s.(windows := s.windows - {device}) }

  datatype Step =
    | Starts(device: string, random: Option<nat>, now: Instant)
    | Confirms(device: string, typed: string, now: Instant, later: Instant)
    | Presses(newest: Option<string>, now: Instant, later: Instant)
    | Asks(device: string, now: Instant)
    | Extends(device: string, now: Instant)
    | Ends(device: string, now: Instant)

  function Next(s: State, step: Step): State {
    match step
    case Starts(device, random, now) => Start(s, device, random, now).state
    case Confirms(device, typed, now, later) => Confirm(s, device, typed, now, later).state
    case Presses(newest, now, later) => Press(s, newest, now, later).state
    case Asks(device, now) => Ask(s, device, now)
    case Extends(device, now) => Extend(s, device, now)
    case Ends(device, _) => End(s, device)
  }

  function Run(s: State, steps: seq<Step>): State {
    if steps == [] then s else Next(Run(s, steps[..|steps| - 1]), steps[|steps| - 1])
  }

  /** A press confirms a newest request that is still fresh. */
  predicate Lawful(s: State, step: Step) {
    step.Presses? ==> MayConfirm(Fresh(s.pending, step.now), step.newest)
  }

  ghost predicate LawfulRun(s: State, steps: seq<Step>) {
    forall i :: 0 <= i < |steps| ==> Lawful(Run(s, steps[..i]), steps[i])
  }

  /** The step opens a window for `device`: the right code from that browser, or the button. */
  predicate Opens(s: State, step: Step, device: string) {
    || (step.Confirms? && step.device == device
        && Confirm(s, device, step.typed, step.now, step.later).response.Granted?)
    || (step.Presses? && step.newest == Some(device))
  }

  /** The step is a wrong code from `device`. */
  predicate Misses(s: State, step: Step, device: string) {
    step.Confirms? && step.device == device
    && match Confirm(s, device, step.typed, step.now, step.later).response
       case Refused(WrongCode(_)) => true
       case Refused(TooManyWrong) => true
       case _ => false
  }
}
