/** Which browsers the unit trusts: what each locked section of the pairing code does to the
    state, and how the sections of concurrent requests interleave. */
module PairingModel {
  import opened Clock
  import opened Options
  import opened Numerals
  import opened CleanupModel
  import opened PassphraseBackoff

  const SETUP_WINDOW: nat := 10 * 60 * SECOND
  const MAX_SETUP_ATTEMPTS: nat := 10
  const MIN_PASSPHRASE_LEN: nat := 8
  const MAX_PASSWORD_LEN: nat := 256
  const PAIR_CODE_TTL: nat := 5 * 60 * SECOND
  const MAX_CODE_ATTEMPTS: nat := 5
  const PRESS_WINDOW: nat := 30 * SECOND
  const MAX_DEVICES: nat := 32
  const MAX_COOKIE_LEN: nat := 128

  /** What a random cookie token is: 32 bytes in base64 without padding. */
  type Token = t: string | |t| == 43 witness seq(43, i => 'A')

  datatype Device = Device(id: string, tokenHash: string, name: string, lastSeen: string)

  datatype SetupWindow = SetupWindow(token: string, since: Instant, wrong: nat)
  datatype PairCode = PairCode(code: string, created: Instant, wrong: nat)
  datatype PressRequest = PressRequest(id: string, created: Instant, approved: Option<Instant>)

  datatype Auth = Auth(setupComplete: bool, ownerHash: Option<string>, devices: seq<Device>)

  datatype Unit = Unit(
    auth: Auth,
    window: Option<SetupWindow>,
    press: Option<PressRequest>,
    code: Option<PairCode>,
    backoff: Streak)

  datatype PairError =
    | AlreadyComplete
    | WindowClosed
    | WrongToken(attemptsLeft: nat)
    | PassphraseTooShort
    | WrongPassphrase
    | Backoff(seconds: nat)
    | NoPassphrase
    | NoSuchDevice
    | NoCode
    | NotPressed
    | PressPending(seconds: nat)
    | TooManyDevices
    | Storage

  /** The hash functions: the two digests of a cookie token that are stored, of which the id is a
      prefix of the hash, and whether a passphrase is the one behind a stored hash. */
  datatype Digests = Digests(
    hash: string -> string,
    id: string -> string,
    verifies: (string, string) -> bool)

  // Tokens and codes.

  function AsciiUpper(c: char): char { if 'a' <= c <= 'z' then (c as int - 32) as char else c }

  function Meant(c: char): char {
    var u := AsciiUpper(c);
    if u == 'O' then '0' else if u == 'I' || u == 'L' then '1' else u
  }

  function NormalizeToken(typed: string): string {
    if typed == "" then ""
    else
      (if IsWhitespace(typed[0]) || typed[0] == '-' then "" else [Meant(typed[0])]) + NormalizeToken(typed[1..])
  }

  datatype Checked = Checked(unit: Unit, error: Option<PairError>)

  predicate WindowOpen(u: Unit, now: Instant) {
    u.window.Some? && Elapsed(u.window.value.since, now) < SETUP_WINDOW
  }

  /** An open window keeps its token and its count of wrong tries; only its time starts again. */
  function OpenSetup(u: Unit, token: string, now: Instant): Unit {
    if WindowOpen(u, now) then u.(window := Some(u.window.value.(since := now)))
    else u.(window := Some(SetupWindow(token, now, 0)))
  }

  function CloseSetup(u: Unit): Unit { u.(window := None) }

  function CheckSetupToken(u: Unit, typed: string, now: Instant): Checked {
    if !WindowOpen(u, now) then Checked(u.(window := None), Some(WindowClosed))
    else
      var w := u.window.value;
      if NormalizeToken(typed) == w.token then Checked(u, None)
      else if w.wrong + 1 >= MAX_SETUP_ATTEMPTS then Checked(u.(window := None), Some(WindowClosed))
      else
        Checked(u.(window := Some(w.(wrong := w.wrong + 1))),
                Some(WrongToken(MAX_SETUP_ATTEMPTS - (w.wrong + 1))))
  }

  function SecondsLeft(left: nat): nat { if left / SECOND >= 1 then left / SECOND else 1 }

  /** A request that is still waiting for the press is not replaced. */
  function AskForPress(u: Unit, id: string, now: Instant): Checked {
    if u.press.Some? && Elapsed(u.press.value.created, now) < PRESS_WINDOW then
      Checked(u, Some(PressPending(SecondsLeft(PRESS_WINDOW - Elapsed(u.press.value.created, now)))))
    else Checked(u.(press := Some(PressRequest(id, now, None))), None)
  }

  predicate PressApproved(u: Unit, id: string, now: Instant) {
    && u.press.Some? && u.press.value.id == id && u.press.value.approved.Some?
    && Elapsed(u.press.value.approved.value, now) < PRESS_WINDOW
  }

  predicate AwaitsPress(u: Unit, now: Instant) {
    u.press.Some? && u.press.value.approved.None? && Elapsed(u.press.value.created, now) < PRESS_WINDOW
  }

  function ApprovePress(u: Unit, now: Instant): Unit
    requires AwaitsPress(u, now)
  {
    u.(press := Some(u.press.value.(approved := Some(now))))
  }

  function MintCode(u: Unit, code: string, now: Instant): Unit { u.(code := Some(PairCode(code, now, 0))) }

  /** The right code is taken away before anything is done with it. */
  function TakeCode(u: Unit, typed: string, now: Instant): Checked {
    if u.code.None? then Checked(u, Some(NoCode))
    else
      var c := u.code.value;
      if Elapsed(c.created, now) >= PAIR_CODE_TTL then Checked(u.(code := None), Some(NoCode))
      else if c.code == Digits(typed) then Checked(u.(code := None), None)
      else if c.wrong + 1 >= MAX_CODE_ATTEMPTS then Checked(u.(code := None), Some(NoCode))
      else
        Checked(u.(code := Some(c.(wrong := c.wrong + 1))), Some(WrongToken(MAX_CODE_ATTEMPTS - (c.wrong + 1))))
  }

  // The devices.

  function Trust(auth: Auth, dg: Digests, token: Token, name: string, at: string): Auth {
    auth.(devices := auth.devices + [Device(dg.id(token), dg.hash(token), name, at)])
  }

  predicate Full(auth: Auth) { |auth.devices| >= MAX_DEVICES }

  /** Where the devices with another id are, in order. */
  function KeptAt(devices: seq<Device>, id: string): (at: seq<nat>)
    ensures forall i :: 0 <= i < |at| ==> at[i] < |devices|
    ensures forall i, j :: 0 <= i < j < |at| ==> at[i] < at[j]
    ensures forall k :: 0 <= k < |devices| ==> (k in at <==> devices[k].id != id)
  {
    if devices == [] then []
    else
      var last := |devices| - 1;
      KeptAt(devices[..last], id) + (if devices[last].id == id then [] else [last])
  }

  /** `kept` is the devices with another id, in their order. */
  predicate KeepsOrder(devices: seq<Device>, id: string, kept: seq<Device>) {
    var at := KeptAt(devices, id);
    |kept| == |at| && forall i :: 0 <= i < |at| ==> kept[i] == devices[at[i]]
  }

  function Retain(devices: seq<Device>, id: string): (kept: seq<Device>)
    ensures |kept| <= |devices|
    ensures forall d :: d in kept <==> d in devices && d.id != id
    ensures KeepsOrder(devices, id, kept)
  {
    hide KeepsOrder;
    OneMoreKept(devices, id);
    if devices == [] then []
    else
      var last := |devices| - 1;
      assert devices == devices[..last] + [devices[last]];
      Retain(devices[..last], id) + (if devices[last].id == id then [] else [devices[last]])
  }

  lemma OneMoreKept(devices: seq<Device>, id: string)
    ensures devices == [] ==> KeepsOrder(devices, id, [])
    ensures devices != [] ==>
              var before, last := devices[..|devices| - 1], devices[|devices| - 1];
              forall kept :: KeepsOrder(before, id, kept) ==>
                KeepsOrder(devices, id, kept + (if last.id == id then [] else [last]))
  {
  }

  function FindDevice(devices: seq<Device>, id: string): (r: Option<nat>)
    ensures r.None? ==> forall d :: d in devices ==> d.id != id
    ensures r.Some? ==> r.value < |devices| && devices[r.value].id == id
  {
    if devices == [] then None
    else if devices[0].id == id then Some(0)
    else match FindDevice(devices[1..], id) case None => None case Some(i) => Some(i + 1)
  }

  /** The device a cookie belongs to: one lookup by id, one comparison of the whole hash. */
  function Authenticate(auth: Auth, dg: Digests, cookie: string): Option<nat> {
    if cookie == "" || |cookie| > MAX_COOKIE_LEN then None
    else
      match FindDevice(auth.devices, dg.id(cookie))
      case None => None
      case Some(i) => if auth.devices[i].tokenHash == dg.hash(cookie) then Some(i) else None
  }

  /** Seen just now, or renamed: the record keeps its id and hash. */
  function Relabel(auth: Auth, id: string, name: Option<string>, seen: Option<string>): Auth {
    match FindDevice(auth.devices, id)
    case None => auth
    case Some(i) =>
      var d := auth.devices[i];
      var name' := if name.Some? then name.value else d.name;
      var seen' := if seen.Some? then seen.value else d.lastSeen;
      auth.(devices := auth.devices[i := d.(name := name', lastSeen := seen')])
  }

  function Utf8Len(s: string): nat {
    if s == "" then 0
    else
      (if s[0] < '\U{80}' then 1 else if s[0] < '\U{800}' then 2 else if s[0] < '\U{10000}' then 3 else 4)
      + Utf8Len(s[1..])
  }

  predicate AcceptablePassphrase(p: string) { |p| >= MIN_PASSPHRASE_LEN && Utf8Len(p) <= MAX_PASSWORD_LEN }

  // Requests in progress.

  datatype Contact = ByToken(token: string) | ByPress(id: string)

  datatype Goal = ChangePassphrase(passphrase: string) | PairByPassphrase | PairByAccount(accountHash: string)

  datatype Response = Welcome(token: Token) | Changed | Started | Denied(error: PairError)

  /** Where a request is: what it has learnt and which section comes next. */
  datatype Call =
    | SetupWaiting(how: Contact, passphrase: string)
    | SetupLooking(how: Contact, passphrase: string)    // the setup lock held from here
    | SetupProving(how: Contact, passphrase: string)
    | SetupWriting(how: Contact, passphrase: string)
    | SetupClosing(how: Contact, token: Token)
    | GuessWaiting(passphrase: string, goal: Goal)
    | GuessLooking(passphrase: string, goal: Goal)
    | GuessVerifying(passphrase: string, hash: string, goal: Goal)
    | AccountWaiting(account: Option<string>, password: string)   // the hash of the account named
    | AccountVerifying(account: Option<string>, password: string)
    | Verified(goal: Goal)
    | PairClosing(token: Token)
    | CodeWaiting(code: string)
    | CodeWriting
    | OpenWaiting
    | OpenWriting
    | PressWaiting
    | PressWriting
    | Finished(response: Response)

  predicate HoldsSetupLock(c: Call) {
    c.SetupLooking? || c.SetupProving? || c.SetupWriting? || c.SetupClosing?
  }

  datatype System = System(
    unit: Unit,
    calls: map<nat, Call>,
    live: set<string>,         // the cookies issued or loaded and not revoked since
    owners: set<nat>)          // the requests that were told they made first contact

  /** What one section is given by the clock, the random source, the disk and the hash function. */
  datatype Given = Given(
    now: Instant,
    token: Option<Token>,       // a new cookie, None without randomness
    random: Option<string>,     // a setup token or a press id, likewise
    hash: string,               // of the passphrase being set
    hashed: bool,               // whether the hashing thread finished
    saved: bool,                // whether the file could be written
    name: string,
    at: string)

  datatype Event =
    | Begin(id: nat, call: Call)
    | Section(id: nat, given: Given)
    | Button(showsFingerprint: bool, now: Instant)
    | Mint(code: string, now: Instant)
    | Revoke(device: string)
    | Label(device: string, name: Option<string>, seen: Option<string>)

  predicate Begins(c: Call) {
    c.SetupWaiting? || c.GuessWaiting? || c.AccountWaiting? || c.CodeWaiting? || c.OpenWaiting? || c.PressWaiting?
  }

  predicate SetupLockFree(y: System) { forall id :: id in y.calls ==> !HoldsSetupLock(y.calls[id]) }

  predicate Possible(y: System, e: Event) {
    match e
    case Begin(id, call) => id !in y.calls && Begins(call)
    case Section(id, _) =>
      id in y.calls && !y.calls[id].Finished? && (y.calls[id].SetupWaiting? ==> SetupLockFree(y))
    case _ => true
  }

  datatype Moved = Moved(unit: Unit, call: Call, issued: Option<Token>)

  function Go(u: Unit, call: Call): Moved { Moved(u, call, None) }

  function Refuse(u: Unit, e: PairError): Moved { Moved(u, Finished(Denied(e)), None) }

  /** First contact is written: the check is made again with the state locked. */
  function WriteOwner(dg: Digests, u: Unit, how: Contact, passphrase: string, g: Given): Moved {
    if !AcceptablePassphrase(passphrase) then Refuse(u, PassphraseTooShort)
    else if !g.hashed then Refuse(u, Storage)
    else if u.auth.setupComplete || u.auth.devices != [] then Refuse(u, AlreadyComplete)
    else if g.token.None? then Refuse(u, Storage)
    else
      var token := g.token.value;
      var auth := Trust(u.auth, dg, token, g.name, g.at).(ownerHash := Some(g.hash), setupComplete := true);
      Moved(u.(auth := auth), if g.saved then SetupClosing(how, token) else Finished(Denied(Storage)), g.token)
  }

  /** A browser that has passed a check is trusted, or its new passphrase takes over. */
  function WriteVerified(dg: Digests, u: Unit, goal: Goal, g: Given): Moved {
    match goal
    case ChangePassphrase(passphrase) =>
      if !AcceptablePassphrase(passphrase) then Refuse(u, PassphraseTooShort)
      else if !g.hashed then Refuse(u, Storage)
      else
        Go(u.(auth := u.auth.(ownerHash := Some(g.hash))), Finished(if g.saved then Changed else Denied(Storage)))
    case _ =>
      if Full(u.auth) then Refuse(u, TooManyDevices)
      else if g.token.None? then Refuse(u, Storage)
      else
        var token := g.token.value;
        var hash := if goal.PairByAccount? && u.auth.ownerHash.None? then Some(goal.accountHash) else u.auth.ownerHash;
        var auth := Trust(u.auth, dg, token, g.name, g.at).(ownerHash := hash, setupComplete := true);
        Moved(u.(auth := auth), if g.saved then PairClosing(token) else Finished(Denied(Storage)), g.token)
  }

  function WritePaired(dg: Digests, u: Unit, g: Given): Moved {
    if Full(u.auth) then Refuse(u, TooManyDevices)
    else if g.token.None? then Refuse(u, Storage)
    else
      Moved(u.(auth := Trust(u.auth, dg, g.token.value, g.name, g.at)),
            Finished(if g.saved then Welcome(g.token.value) else Denied(Storage)), g.token)
  }

  function CheckBackoff(u: Unit, next: Call, now: Instant): Moved {
    match WaitRemaining(u.backoff, now)
    case Some(left) => Refuse(u, Backoff(SecondsLeft(left)))
    case None => Go(u, next)
  }

  /** A passphrase too long is not even hashed. */
  predicate Verifies(dg: Digests, passphrase: string, hash: string) {
    Utf8Len(passphrase) <= MAX_PASSWORD_LEN && dg.verifies(passphrase, hash)
  }

  function Judge(u: Unit, goal: Option<Goal>, matches: bool, now: Instant): Moved {
    if matches && goal.Some? then Go(u.(backoff := FORGOTTEN), Verified(goal.value))
    else Refuse(u.(backoff := Failed(u.backoff, now)), WrongPassphrase)
  }

  function ProveContact(u: Unit, how: Contact, passphrase: string, now: Instant): Moved {
    match how
    case ByToken(token) =>
      var c := CheckSetupToken(u, token, now);
      if c.error.Some? then Refuse(c.unit, c.error.value) else Go(c.unit, SetupWriting(how, passphrase))
    case ByPress(id) =>
      if PressApproved(u, id, now) then Go(u, SetupWriting(how, passphrase)) else Refuse(u, NotPressed)
  }

  predicate Owned(u: Unit) { u.auth.setupComplete || u.auth.devices != [] }

  /** The next section of one request. */
  function Advance(dg: Digests, u: Unit, call: Call, g: Given): Moved
    requires !call.Finished?
  {
    match call
    case SetupWaiting(how, p) => Go(u, SetupLooking(how, p))
    case SetupLooking(how, p) =>
      if u.auth.setupComplete then Refuse(u, AlreadyComplete) else Go(u, SetupProving(how, p))
    case SetupProving(how, p) => ProveContact(u, how, p, g.now)
    case SetupWriting(how, p) => WriteOwner(dg, u, how, p, g)
    case SetupClosing(how, token) =>
      var u1 := CloseSetup(u);
      Go(if how.ByPress? then u1.(press := None) else u1, Finished(Welcome(token)))
    case GuessWaiting(p, goal) => CheckBackoff(u, GuessLooking(p, goal), g.now)
    case GuessLooking(p, goal) =>
      (match u.auth.ownerHash
       case None => Refuse(u, NoPassphrase)
       case Some(hash) => Go(u, GuessVerifying(p, hash, goal)))
    case GuessVerifying(p, hash, goal) => Judge(u, Some(goal), g.hashed && Verifies(dg, p, hash), g.now)
    case AccountWaiting(account, p) => CheckBackoff(u, AccountVerifying(account, p), g.now)
    case AccountVerifying(None, _) => Judge(u, None, false, g.now)
    case AccountVerifying(Some(hash), p) =>
      Judge(u, Some(PairByAccount(hash)), g.hashed && Verifies(dg, p, hash), g.now)
    case Verified(goal) => WriteVerified(dg, u, goal, g)
    case PairClosing(token) => Go(CloseSetup(u), Finished(Welcome(token)))
    case CodeWaiting(code) =>
      var c := TakeCode(u, code, g.now);
      if c.error.Some? then Refuse(c.unit, c.error.value) else Go(c.unit, CodeWriting)
    case CodeWriting => WritePaired(dg, u, g)
    case OpenWaiting => if Owned(u) then Refuse(u, AlreadyComplete) else Go(u, OpenWriting)
    case OpenWriting =>
      if !WindowOpen(u, g.now) && g.random.None? then Refuse(u, Storage)
      else Go(OpenSetup(u, if g.random.Some? then g.random.value else "", g.now), Finished(Started))
    case PressWaiting => if Owned(u) then Refuse(u, AlreadyComplete) else Go(u, PressWriting)
    case PressWriting =>
      if g.random.None? then Refuse(u, Storage)
      else
        var c := AskForPress(u, g.random.value, g.now);
        if c.error.Some? then Refuse(c.unit, c.error.value) else Go(c.unit, Finished(Started))
  }

  /** A press approves a waiting request; or, with the window open, shows the certificate and
      gives the window its time again. Otherwise it asks to open the window, as a request does. */
  function PressButton(u: Unit, showsFingerprint: bool, now: Instant): Unit {
    if AwaitsPress(u, now) then ApprovePress(u, now)
    else if WindowOpen(u, now) then
      if showsFingerprint then u.(window := Some(u.window.value.(since := now))) else u
    else u.(window := None)
  }

  /** An event that cannot happen now does nothing. */
  function Next(dg: Digests, y: System, e: Event): System {
    if Possible(y, e) then Happen(dg, y, e) else y
  }

  function Happen(dg: Digests, y: System, e: Event): System
    requires Possible(y, e)
  {
    match e
    case Begin(id, call) => y.(calls := y.calls[id := call])
    case Section(id, g) =>
      var m := Advance(dg, y.unit, y.calls[id], g);
      y.(unit := m.unit, calls := y.calls[id := m.call],
         live := y.live + (match m.issued case None => {} case Some(token) => {token}),
         owners := if y.calls[id].SetupClosing? then y.owners + {id} else y.owners)
    case Button(showsFingerprint, now) => y.(unit := PressButton(y.unit, showsFingerprint, now))
    case Mint(code, now) => y.(unit := MintCode(y.unit, code, now))
    case Revoke(device) =>
      y.(unit := y.unit.(auth := y.unit.auth.(devices := Retain(y.unit.auth.devices, device))),
         live := set t | t in y.live && dg.id(t) != device)
    case Label(device, name, seen) => y.(unit := y.unit.(auth := Relabel(y.unit.auth, device, name, seen)))
  }

  function Run(dg: Digests, y: System, events: seq<Event>): System {
    if events == [] then y
    else Next(dg, Run(dg, y, events[..|events| - 1]), events[|events| - 1])
  }
}
