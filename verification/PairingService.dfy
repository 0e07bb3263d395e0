/** The pairing service as the program has it: an object whose locked fields each section reads
    and updates. A request that nobody interrupts does what its sections do in turn. */
module PairingService {
  import opened Clock
  import opened Options
  import opened Numerals
  import opened PassphraseBackoff
  import opened PairingModel

  /** How many sections a request may still have to go through. */
  function SectionsLeft(c: Call): nat {
    match c
    case SetupWaiting(_, _) => 5
    case SetupLooking(_, _) => 4
    case SetupProving(_, _) => 3
    case SetupWriting(_, _) => 2
    case SetupClosing(_, _) => 1
    case GuessWaiting(_, _) => 5
    case GuessLooking(_, _) => 4
    case GuessVerifying(_, _, _) => 3
    case AccountWaiting(_, _) => 4
    case AccountVerifying(_, _) => 3
    case Verified(_) => 2
    case PairClosing(_) => 1
    case CodeWaiting(_) => 2
    case CodeWriting => 1
    case OpenWaiting => 2
    case OpenWriting => 1
    case PressWaiting => 2
    case PressWriting => 1
    case Finished(_) => 0
  }

  datatype Answer = Answer(unit: Unit, response: Response)

  /** The whole of a request with nothing in between. */
  function Alone(dg: Digests, u: Unit, call: Call, g: Given): Answer
    decreases SectionsLeft(call)
  {
    if call.Finished? then Answer(u, call.response)
    else
      var m := Advance(dg, u, call, g);
      SectionsRunOut(dg, u, call, g);
      hide Advance;
      Alone(dg, m.unit, m.call, g)
  }

  lemma SectionsRunOut(dg: Digests, u: Unit, call: Call, g: Given)
    requires !call.Finished?
    ensures SectionsLeft(Advance(dg, u, call, g).call) < SectionsLeft(call)
  {
    hide CheckSetupToken, TakeCode, AskForPress, PressApproved, WaitRemaining, Verifies, AcceptablePassphrase, Trust;
  }

  class Pairing {
    const dg: Digests
    const backoff: Backoff
    var setupComplete: bool
    var ownerHash: Option<string>
    var devices: seq<Device>
    var setup: Option<SetupWindow>
    var press: Option<PressRequest>
    var pairCode: Option<PairCode>

    constructor (dg: Digests, auth: Auth)
      ensures fresh(backoff) && this.dg == dg && View() == Unit(auth, None, None, None, FORGOTTEN)
    {
      this.dg := dg;
      var b := new Backoff();
      backoff := b;
      setupComplete, ownerHash, devices := auth.setupComplete, auth.ownerHash, auth.devices;
      setup, press, pairCode := None, None, None;
    }

    function AuthState(): Auth
      reads this
    {
      Auth(setupComplete, ownerHash, devices)
    }

    function View(): Unit
      reads this, backoff
    {
      Unit(AuthState(), setup, press, pairCode, backoff.View())
    }

    // Sections.

    /** A new token is drawn only when no window is open. */
    method OpenWindow(random: Option<string>, now: Instant) returns (isOpen: bool)
      modifies `setup
      ensures isOpen <==> WindowOpen(old(View()), now) || random.Some?
      ensures View() == if isOpen then OpenSetup(old(View()), if random.Some? then random.value else "", now)
                        else old(View())
    {
      if setup.Some? && Elapsed(setup.value.since, now) < SETUP_WINDOW {
        setup := Some(setup.value.(since := now));
        return true;
      }
      if random.None? {
        return false;
      }
      setup := Some(SetupWindow(random.value, now, 0));
      isOpen := true;
    }

    method CheckSetupToken(typed: string, now: Instant) returns (error: Option<PairError>)
      modifies `setup
      ensures Checked(View(), error) == PairingModel.CheckSetupToken(old(View()), typed, now)
    {
      hide NormalizeToken;
      if setup.None? {
        return Some(WindowClosed);
      }
      var w := setup.value;
      if Elapsed(w.since, now) >= SETUP_WINDOW {
        setup := None;
        return Some(WindowClosed);
      }
      if NormalizeToken(typed) == w.token {
        return None;
      }
      setup := Some(w.(wrong := w.wrong + 1));
      if setup.value.wrong >= MAX_SETUP_ATTEMPTS {
        setup := None;
        return Some(WindowClosed);
      }
      error := Some(WrongToken(MAX_SETUP_ATTEMPTS - setup.value.wrong));
    }

    method PutPressRequest(id: string, now: Instant) returns (error: Option<PairError>)
      modifies `press
      ensures Checked(View(), error) == AskForPress(old(View()), id, now)
    {
      if press.Some? {
        var age := Elapsed(press.value.created, now);
        if age < PRESS_WINDOW {
          return Some(PressPending(SecondsLeft(PRESS_WINDOW - age)));
        }
      }
      press := Some(PressRequest(id, now, None));
      error := None;
    }

    /** The press request's state while it is live. */
    method PressStatus(id: string, now: Instant) returns (status: Option<bool>)
      ensures status == Some(true) <==> PressApproved(View(), id, now)
      ensures status == Some(false) <==> press.Some? && press.value.id == id && AwaitsPress(View(), now)
    {
      if press.None? || press.value.id != id {
        return None;
      }
      var since := if press.value.approved.Some? then press.value.approved.value else press.value.created;
      status := if Elapsed(since, now) < PRESS_WINDOW then Some(press.value.approved.Some?) else None;
    }

    /** Whether the caller is to go on and ask for the window to be opened. */
    method ButtonPressed(showsFingerprint: bool, now: Instant) returns (askToOpen: bool)
      modifies `press, `setup
      ensures View() == PressButton(old(View()), showsFingerprint, now)
      ensures askToOpen <==> !AwaitsPress(old(View()), now) && !(WindowOpen(old(View()), now) && showsFingerprint)
    {
      if press.Some? && press.value.approved.None? && Elapsed(press.value.created, now) < PRESS_WINDOW {
        press := Some(press.value.(approved := Some(now)));
        return false;
      }
      if setup.Some? && Elapsed(setup.value.since, now) >= SETUP_WINDOW {
        setup := None;
      }
      if setup.Some? && showsFingerprint {
        setup := Some(setup.value.(since := now));
        return false;
      }
      askToOpen := true;
    }

    method MintCode(code: string, now: Instant)
      modifies `pairCode
      ensures View() == PairingModel.MintCode(old(View()), code, now)
    {
      pairCode := Some(PairCode(code, now, 0));
    }

    method TakeCode(typed: string, now: Instant) returns (error: Option<PairError>)
      modifies `pairCode
      ensures Checked(View(), error) == PairingModel.TakeCode(old(View()), typed, now)
    {
      var given := Digits(typed);
      if pairCode.None? {
        return Some(NoCode);
      }
      var c := pairCode.value;
      if Elapsed(c.created, now) >= PAIR_CODE_TTL {
        pairCode := None;
        return Some(NoCode);
      }
      if c.code != given {
        pairCode := Some(c.(wrong := c.wrong + 1));
        if pairCode.value.wrong >= MAX_CODE_ATTEMPTS {
          pairCode := None;
          return Some(NoCode);
        }
        return Some(WrongToken(MAX_CODE_ATTEMPTS - pairCode.value.wrong));
      }
      pairCode := None;
      error := None;
    }

    method AddDevice(token: Option<Token>, name: string, at: string) returns (error: Option<PairError>)
      modifies `devices
      ensures error == if Full(old(AuthState())) then Some(TooManyDevices)
                       else if token.None? then Some(Storage) else None
      ensures AuthState() == if error.None? then Trust(old(AuthState()), dg, token.value, name, at)
              else old(AuthState())
    {
      if |devices| >= MAX_DEVICES {
        return Some(TooManyDevices);
      }
      if token.None? {
        return Some(Storage);
      }
      devices := devices + [Device(dg.id(token.value), dg.hash(token.value), name, at)];
      error := None;
    }

    method RevokeDevice(id: string, saved: bool) returns (error: Option<PairError>)
      modifies `devices
      ensures devices == Retain(old(devices), id)
      ensures error == if devices == old(devices) then Some(NoSuchDevice) else if saved then None else Some(Storage)
    {
      RetainingAll(devices, id);
      var before := |devices|;
      devices := Retain(devices, id);
      error := if |devices| == before then Some(NoSuchDevice) else if saved then None else Some(Storage);
    }

    method Label(id: string, name: Option<string>, seen: Option<string>)
      modifies `devices
      ensures AuthState() == Relabel(old(AuthState()), id, name, seen)
    {
      var found := FindDevice(devices, id);
      if found.Some? {
        var i := found.value;
        if name.Some? {
          devices := devices[i := devices[i].(name := name.value)];
        }
        if seen.Some? {
          devices := devices[i := devices[i].(lastSeen := seen.value)];
        }
      }
    }

    method Authenticate(cookie: string) returns (device: Option<Device>)
      ensures var found := PairingModel.Authenticate(AuthState(), dg, cookie);
              device == if found.Some? then Some(devices[found.value]) else None
    {
      if cookie == "" || |cookie| > MAX_COOKIE_LEN {
        return None;
      }
      var id, wanted := dg.id(cookie), dg.hash(cookie);
      var i := 0;
      while i < |devices| && devices[i].id != id
        invariant i <= |devices|
        invariant FindDevice(devices, id) ==
                    match FindDevice(devices[i..], id) case None => None case Some(j) => Some(i + j)
      {
        assert devices[i..][1..] == devices[i + 1..];
        i := i + 1;
      }
      if i < |devices| {
        assert devices[i..][0] == devices[i];
      }
      device := if i < |devices| && devices[i].tokenHash == wanted then Some(devices[i]) else None;
    }

    // Whole requests, with the expensive hashing done elsewhere and its outcome given.

    method VerifyPassphrase(passphrase: string, ghost goal: Goal, g: Given) returns (error: Option<PairError>)
      modifies backoff
      ensures Alone(dg, old(View()), GuessWaiting(passphrase, goal), g)
              == if error.Some? then Answer(View(), Denied(error.value)) else Alone(dg, View(), Verified(goal), g)
    {
      GuessSections(dg, View(), passphrase, goal, g);
      hide Alone;
      var wait := WaitRemaining(backoff.View(), g.now);
      if wait.Some? {
        return Some(PairError.Backoff(SecondsLeft(wait.value)));
      }
      if ownerHash.None? {
        return Some(NoPassphrase);
      }
      if Utf8Len(passphrase) > MAX_PASSWORD_LEN || !g.hashed || !dg.verifies(passphrase, ownerHash.value) {
        backoff.NoteFailure(g.now);
        return Some(WrongPassphrase);
      }
      backoff.NoteSuccess();
      error := None;
    }

    method ChangePassphrase(current: string, replacement: string, g: Given) returns (response: Response)
      modifies this, backoff
      ensures Answer(View(), response)
              == Alone(dg, old(View()), GuessWaiting(current, Goal.ChangePassphrase(replacement)), g)
    {
      var error := VerifyPassphrase(current, Goal.ChangePassphrase(replacement), g);
      if error.Some? {
        return Denied(error.value);
      }
      VerifiedSections(dg, View(), Goal.ChangePassphrase(replacement), g);
      hide Alone;
      if |replacement| < MIN_PASSPHRASE_LEN || Utf8Len(replacement) > MAX_PASSWORD_LEN {
        return Denied(PassphraseTooShort);
      }
      if !g.hashed {
        return Denied(Storage);
      }
      ownerHash := Some(g.hash);
      response := if g.saved then Changed else Denied(Storage);
    }

    method PairWithPassphrase(passphrase: string, g: Given) returns (response: Response)
      modifies this, backoff
      ensures Answer(View(), response) == Alone(dg, old(View()), GuessWaiting(passphrase, PairByPassphrase), g)
    {
      var error := VerifyPassphrase(passphrase, PairByPassphrase, g);
      if error.Some? {
        return Denied(error.value);
      }
      VerifiedSections(dg, View(), PairByPassphrase, g);
      hide Alone;
      response := FinishPairing(ownerHash, g);
    }

    /** An account's password hash becomes the owner's if there is none. */
    method PairWithAccount(account: Option<string>, password: string, g: Given) returns (response: Response)
      modifies this, backoff
      ensures Answer(View(), response) == Alone(dg, old(View()), AccountWaiting(account, password), g)
    {
      AccountSections(dg, View(), account, password, g);
      var wait := WaitRemaining(backoff.View(), g.now);
      if wait.Some? {
        hide Alone;
        return Denied(PairError.Backoff(SecondsLeft(wait.value)));
      }
      if account.None? || Utf8Len(password) > MAX_PASSWORD_LEN || !g.hashed || !dg.verifies(password, account.value) {
        hide Alone;
        backoff.NoteFailure(g.now);
        return Denied(WrongPassphrase);
      }
      VerifiedSections(dg, View().(backoff := FORGOTTEN), PairByAccount(account.value), g);
      hide Alone;
      backoff.NoteSuccess();
      response := FinishPairing(if ownerHash.None? then account else ownerHash, g);
    }

    /** The device is added and the unit counts as set up; with that saved, the window closes. */
    method FinishPairing(hash: Option<string>, g: Given) returns (response: Response)
      modifies this
      ensures Answer(View(), response) == Paired(dg, old(View()), hash, g)
    {
      var error := AddDevice(g.token, g.name, g.at);
      if error.Some? {
        return Denied(error.value);
      }
      ownerHash := hash;
      setupComplete := true;
      if !g.saved {
        return Denied(Storage);
      }
      setup := None;
      response := Welcome(g.token.value);
    }

    method PairWithCode(code: string, g: Given) returns (response: Response)
      modifies this
      ensures Answer(View(), response) == Alone(dg, old(View()), CodeWaiting(code), g)
    {
      CodeSections(dg, View(), code, g);
      hide Alone, PairingModel.TakeCode;
      var error := TakeCode(code, g.now);
      if error.Some? {
        return Denied(error.value);
      }
      error := AddDevice(g.token, g.name, g.at);
      if error.Some? {
        return Denied(error.value);
      }
      response := if g.saved then Welcome(g.token.value) else Denied(Storage);
    }

    /** First contact, by the token on the screen or by the button. */
    method CompleteSetup(how: Contact, passphrase: string, g: Given) returns (response: Response)
      modifies this
      ensures Answer(View(), response) == Alone(dg, old(View()), SetupWaiting(how, passphrase), g)
    {
      SetupSections(dg, View(), how, passphrase, g);
      hide Alone, PairingModel.CheckSetupToken;
      if setupComplete {
        return Denied(AlreadyComplete);
      }
      match how {
        case ByToken(token) =>
          var error := CheckSetupToken(token, g.now);
          if error.Some? {
            return Denied(error.value);
          }
        case ByPress(id) =>
          var status := PressStatus(id, g.now);
          if status != Some(true) {
            return Denied(NotPressed);
          }
      }
      if |passphrase| < MIN_PASSPHRASE_LEN || Utf8Len(passphrase) > MAX_PASSWORD_LEN {
        return Denied(PassphraseTooShort);
      }
      if !g.hashed {
        return Denied(Storage);
      }
      if devices != [] {
        return Denied(AlreadyComplete);
      }
      var refused := AddDevice(g.token, g.name, g.at);
      if refused.Some? {
        return Denied(refused.value);
      }
      ownerHash := Some(g.hash);
      setupComplete := true;
      if !g.saved {
        return Denied(Storage);
      }
      setup := None;
      if how.ByPress? {
        press := None;
      }
      response := Welcome(g.token.value);
    }
  }

  lemma {:induction false} RetainingAll(devices: seq<Device>, id: string)
    ensures |Retain(devices, id)| == |devices| ==> Retain(devices, id) == devices
  {
    hide KeepsOrder;
    if devices != [] {
      var last := |devices| - 1;
      RetainingAll(devices[..last], id);
      assert devices == devices[..last] + [devices[last]];
    }
  }

  // What whole requests come to.

  lemma GuessSections(dg: Digests, u: Unit, passphrase: string, goal: Goal, g: Given)
    ensures Alone(dg, u, GuessWaiting(passphrase, goal), g) ==
            match WaitRemaining(u.backoff, g.now)
            case Some(left) => Answer(u, Denied(Backoff(SecondsLeft(left))))
            case None =>
              if u.auth.ownerHash.None? then Answer(u, Denied(NoPassphrase))
              else if g.hashed && Verifies(dg, passphrase, u.auth.ownerHash.value) then
                Alone(dg, u.(backoff := FORGOTTEN), Verified(goal), g)
              else Answer(u.(backoff := Failed(u.backoff, g.now)), Denied(WrongPassphrase))
  {
    hide Verifies, WaitRemaining, Failed, WriteVerified;
    var looking := GuessLooking(passphrase, goal);
    var m := Advance(dg, u, GuessWaiting(passphrase, goal), g);
    assert Alone(dg, u, GuessWaiting(passphrase, goal), g) == Alone(dg, m.unit, m.call, g);
    var m1 := Advance(dg, u, looking, g);
    assert Alone(dg, u, looking, g) == Alone(dg, m1.unit, m1.call, g);
    if hash :| u.auth.ownerHash == Some(hash) {
      var m2 := Advance(dg, u, GuessVerifying(passphrase, hash, goal), g);
      assert Alone(dg, u, GuessVerifying(passphrase, hash, goal), g) == Alone(dg, m2.unit, m2.call, g);
    }
  }

  lemma AccountSections(dg: Digests, u: Unit, account: Option<string>, password: string, g: Given)
    ensures Alone(dg, u, AccountWaiting(account, password), g) ==
            match WaitRemaining(u.backoff, g.now)
            case Some(left) => Answer(u, Denied(Backoff(SecondsLeft(left))))
            case None =>
              if account.Some? && g.hashed && Verifies(dg, password, account.value) then
                Alone(dg, u.(backoff := FORGOTTEN), Verified(PairByAccount(account.value)), g)
              else Answer(u.(backoff := Failed(u.backoff, g.now)), Denied(WrongPassphrase))
  {
    hide Verifies, WaitRemaining, Failed, WriteVerified;
    var m := Advance(dg, u, AccountWaiting(account, password), g);
    assert Alone(dg, u, AccountWaiting(account, password), g) == Alone(dg, m.unit, m.call, g);
    var m1 := Advance(dg, u, AccountVerifying(account, password), g);
    assert Alone(dg, u, AccountVerifying(account, password), g) == Alone(dg, m1.unit, m1.call, g);
  }

  /** A verified browser is trusted under this owner's hash. */
  function Paired(dg: Digests, u: Unit, ownerHash: Option<string>, g: Given): Answer {
    if Full(u.auth) then Answer(u, Denied(TooManyDevices))
    else if g.token.None? then Answer(u, Denied(Storage))
    else
      var auth := Trust(u.auth, dg, g.token.value, g.name, g.at).(ownerHash := ownerHash, setupComplete := true);
      if g.saved then Answer(CloseSetup(u.(auth := auth)), Welcome(g.token.value))
      else Answer(u.(auth := auth), Denied(Storage))
  }

  lemma VerifiedSections(dg: Digests, u: Unit, goal: Goal, g: Given)
    ensures Alone(dg, u, Verified(goal), g) ==
            match goal
            case ChangePassphrase(p) =>
              if !AcceptablePassphrase(p) then Answer(u, Denied(PassphraseTooShort))
              else if !g.hashed then Answer(u, Denied(Storage))
              else Answer(u.(auth := u.auth.(ownerHash := Some(g.hash))), if g.saved then Changed else Denied(Storage))
            case PairByPassphrase => Paired(dg, u, u.auth.ownerHash, g)
            case PairByAccount(hash) =>
              Paired(dg, u, if u.auth.ownerHash.None? then Some(hash) else u.auth.ownerHash, g)
  {
    hide Utf8Len;
    var m := Advance(dg, u, Verified(goal), g);
    assert Alone(dg, u, Verified(goal), g) == Alone(dg, m.unit, m.call, g);
    if m.call.PairClosing? {
      assert Alone(dg, m.unit, m.call, g) == Answer(CloseSetup(m.unit), Welcome(m.call.token));
    }
  }

  lemma CodeSections(dg: Digests, u: Unit, code: string, g: Given)
    ensures Alone(dg, u, CodeWaiting(code), g) ==
            var c := TakeCode(u, code, g.now);
            if c.error.Some? then Answer(c.unit, Denied(c.error.value))
            else if Full(u.auth) then Answer(c.unit, Denied(TooManyDevices))
            else if g.token.None? then Answer(c.unit, Denied(Storage))
            else
              Answer(c.unit.(auth := Trust(u.auth, dg, g.token.value, g.name, g.at)),
                     if g.saved then Welcome(g.token.value) else Denied(Storage))
  {
    var m := Advance(dg, u, CodeWaiting(code), g);
    assert Alone(dg, u, CodeWaiting(code), g) == Alone(dg, m.unit, m.call, g);
    if m.call.CodeWriting? {
      var m1 := Advance(dg, m.unit, CodeWriting, g);
      assert Alone(dg, m.unit, CodeWriting, g) == Alone(dg, m1.unit, m1.call, g);
    }
  }

  /** First contact as one request makes it: refused to a unit set up or with a device, without
      proof, or with a passphrase too short or too long. */
  function Contacted(dg: Digests, u: Unit, how: Contact, passphrase: string, g: Given): Answer {
    if u.auth.setupComplete then Answer(u, Denied(AlreadyComplete))
    else
      var m := ProveContact(u, how, passphrase, g.now);
      if m.call.Finished? then Answer(m.unit, m.call.response)
      else if !AcceptablePassphrase(passphrase) then Answer(m.unit, Denied(PassphraseTooShort))
      else if !g.hashed then Answer(m.unit, Denied(Storage))
      else if u.auth.devices != [] then Answer(m.unit, Denied(AlreadyComplete))
      else if g.token.None? then Answer(m.unit, Denied(Storage))
      else
        var auth := Trust(u.auth, dg, g.token.value, g.name, g.at).(ownerHash := Some(g.hash), setupComplete := true);
        if !g.saved then Answer(m.unit.(auth := auth), Denied(Storage))
        else
          Answer(m.unit.(auth := auth, window := None, press := if how.ByPress? then None else m.unit.press),
                 Welcome(g.token.value))
  }

  lemma SetupSections(dg: Digests, u: Unit, how: Contact, passphrase: string, g: Given)
    ensures Alone(dg, u, SetupWaiting(how, passphrase), g) == Contacted(dg, u, how, passphrase, g)
  {
    hide Utf8Len;
    assert ProveContact(u, how, passphrase, g.now).unit.auth == u.auth;
    hide CheckSetupToken;
    var looking, proving := SetupLooking(how, passphrase), SetupProving(how, passphrase);
    assert Alone(dg, u, SetupWaiting(how, passphrase), g) == Alone(dg, u, looking, g);
    var m := Advance(dg, u, looking, g);
    assert Alone(dg, u, looking, g) == Alone(dg, m.unit, m.call, g);
    if !u.auth.setupComplete {
      var m1 := Advance(dg, u, proving, g);
      assert Alone(dg, u, proving, g) == Alone(dg, m1.unit, m1.call, g);
      if !m1.call.Finished? {
        var m2 := Advance(dg, m1.unit, m1.call, g);
        assert Alone(dg, m1.unit, m1.call, g) == Alone(dg, m2.unit, m2.call, g);
        if !m2.call.Finished? {
          var m3 := Advance(dg, m2.unit, m2.call, g);
          assert Alone(dg, m2.unit, m2.call, g) == Alone(dg, m3.unit, m3.call, g);
        }
      }
    }
  }
}
