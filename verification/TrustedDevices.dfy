/** The cookies accepted are exactly those given out, or loaded, and not revoked. */
module TrustedDevices {
  import opened Options
  import opened PairingModel

  predicate RecordOf(dg: Digests, d: Device, token: string) {
    d.id == dg.id(token) && d.tokenHash == dg.hash(token)
  }

  ghost predicate HasCookie(dg: Digests, d: Device, live: set<string>) {
    exists t :: t in live && RecordOf(dg, d, t)
  }

  ghost predicate HasRecord(dg: Digests, t: string, devices: seq<Device>) {
    exists d :: d in devices && RecordOf(dg, d, t)
  }

  /** The records and the live cookies match each other, and the records are few enough. */
  ghost predicate Known(dg: Digests, auth: Auth, live: set<string>) {
    && |auth.devices| <= MAX_DEVICES
    && (forall t :: t in live ==> 1 <= |t| <= MAX_COOKIE_LEN)
    && (forall d :: d in auth.devices ==> HasCookie(dg, d, live))
    && (forall t :: t in live ==> HasRecord(dg, t, auth.devices))
  }

  lemma MoreCookies(dg: Digests, d: Device, live: set<string>, live': set<string>)
    requires HasCookie(dg, d, live) && live <= live'
    ensures HasCookie(dg, d, live')
  {
  }

  lemma MoreRecords(dg: Digests, t: string, devices: seq<Device>, devices': seq<Device>)
    requires HasRecord(dg, t, devices) && forall d :: d in devices ==> d in devices'
    ensures HasRecord(dg, t, devices')
  {
  }

  lemma Matches(dg: Digests, d: Device, token: string, devices: seq<Device>, live: set<string>)
    requires d in devices && token in live && RecordOf(dg, d, token)
    ensures HasCookie(dg, d, live) && HasRecord(dg, token, devices)
  {
  }

  lemma TrustingIsKnown(dg: Digests, auth: Auth, live: set<string>, token: Token, name: string, at: string)
    requires Known(dg, auth, live) && !Full(auth)
    ensures Known(dg, Trust(auth, dg, token, name, at), live + {token})
  {
    hide HasCookie, HasRecord;
    var auth', live' := Trust(auth, dg, token, name, at), live + {token};
    var d := Device(dg.id(token), dg.hash(token), name, at);
    assert auth'.devices[|auth.devices|] == d;
    Matches(dg, d, token, auth'.devices, live');
    forall e | e in auth.devices ensures HasCookie(dg, e, live') {
      MoreCookies(dg, e, live, live');
    }
    forall t | t in live ensures HasRecord(dg, t, auth'.devices) {
      MoreRecords(dg, t, auth.devices, auth'.devices);
    }
  }

  lemma CookieStays(dg: Digests, d: Device, live: set<string>, id: string)
    requires HasCookie(dg, d, live) && d.id != id
    ensures HasCookie(dg, d, set t | t in live && dg.id(t) != id)
  {
    var t :| t in live && RecordOf(dg, d, t);
    assert t in (set u | u in live && dg.id(u) != id);
  }

  lemma RecordStays(dg: Digests, t: string, devices: seq<Device>, id: string)
    requires HasRecord(dg, t, devices) && dg.id(t) != id
    ensures HasRecord(dg, t, Retain(devices, id))
  {
    var d :| d in devices && RecordOf(dg, d, t);
    assert d in Retain(devices, id);
  }

  lemma RevokingIsKnown(dg: Digests, auth: Auth, live: set<string>, id: string)
    requires Known(dg, auth, live)
    ensures Known(dg, auth.(devices := Retain(auth.devices, id)), set t | t in live && dg.id(t) != id)
  {
    hide HasCookie, HasRecord, KeepsOrder;
    var kept, left := Retain(auth.devices, id), set t | t in live && dg.id(t) != id;
    forall d | d in kept ensures HasCookie(dg, d, left) {
      CookieStays(dg, d, live, id);
    }
    forall t | t in left ensures HasRecord(dg, t, kept) {
      RecordStays(dg, t, auth.devices, id);
    }
  }

  lemma SameKeys(dg: Digests, d: Device, d': Device, live: set<string>)
    requires HasCookie(dg, d, live) && d'.id == d.id && d'.tokenHash == d.tokenHash
    ensures HasCookie(dg, d', live)
  {
    var t :| t in live && RecordOf(dg, d, t);
    assert RecordOf(dg, d', t);
  }

  lemma RecordRelabelled(dg: Digests, t: string, devices: seq<Device>, i: nat, d': Device)
    requires HasRecord(dg, t, devices)
    requires i < |devices| && d'.id == devices[i].id && d'.tokenHash == devices[i].tokenHash
    ensures HasRecord(dg, t, devices[i := d'])
  {
    var d :| d in devices && RecordOf(dg, d, t);
    var j :| 0 <= j < |devices| && devices[j] == d;
    var devices' := devices[i := d'];
    assert devices'[j] in devices' && RecordOf(dg, devices'[j], t);
  }

  lemma RelabellingIsKnown(dg: Digests, auth: Auth, live: set<string>, id: string,
                           name: Option<string>, seen: Option<string>)
    requires Known(dg, auth, live)
    ensures Known(dg, Relabel(auth, id, name, seen), live)
  {
    hide HasCookie, HasRecord;
    if i :| FindDevice(auth.devices, id) == Some(i) {
      var devices' := Relabel(auth, id, name, seen).devices;
      var d, d' := auth.devices[i], devices'[i];
      assert devices' == auth.devices[i := d'] && d'.id == d.id && d'.tokenHash == d.tokenHash;
      assert d in auth.devices;
      SameKeys(dg, d, d', live);
      forall e | e in devices' ensures HasCookie(dg, e, live) {
        SameOrOld(auth.devices, i, d', e);
      }
      forall t | t in live ensures HasRecord(dg, t, devices') {
        RecordRelabelled(dg, t, auth.devices, i, d');
      }
    }
  }

  lemma SameOrOld(devices: seq<Device>, i: nat, d': Device, d: Device)
    requires i < |devices| && d in devices[i := d']
    ensures d == d' || d in devices
  {
  }

  /** The only thing a section does to the records is to add the one whose cookie it issues. */
  lemma SectionEffect(dg: Digests, u: Unit, call: Call, g: Given)
    requires !call.Finished?
    ensures var m := Advance(dg, u, call, g);
            match m.issued
            case None => m.unit.auth.devices == u.auth.devices
            case Some(token) =>
              m.unit.auth.devices == Trust(u.auth, dg, token, g.name, g.at).devices && !Full(u.auth)
    ensures Advance(dg, u, call, g).call.Finished? && Advance(dg, u, call, g).call.response.Welcome? ==>
              call.CodeWriting? || call.SetupClosing? || call.PairClosing?
  {
  }

  /** The request has this cookie in hand, or has handed it out. */
  predicate Carries(call: Call, token: Token) {
    match call
    case SetupClosing(_, t) => t == token
    case PairClosing(t) => t == token
    case Finished(Welcome(t)) => t == token
    case _ => false
  }

  /** Unless the file cannot be written, a cookie is recorded exactly when it goes on to be handed
      out. */
  lemma RecordedExactlyWhenHandedOut(dg: Digests, u: Unit, call: Call, g: Given, token: Token)
    requires !call.Finished?
    ensures var m := Advance(dg, u, call, g);
            Carries(m.call, token) <==> Carries(call, token) || (m.issued == Some(token) && g.saved)
  {
  }

  lemma StepStaysKnown(dg: Digests, y: System, e: Event)
    requires Known(dg, y.unit.auth, y.live)
    ensures Known(dg, Next(dg, y, e).unit.auth, Next(dg, y, e).live)
  {
    if Possible(y, e) {
      match e
      case Section(id, g) =>
        SectionEffect(dg, y.unit, y.calls[id], g);
        TrustingIfIssued(dg, y, Advance(dg, y.unit, y.calls[id], g), g);
      case Revoke(device) => RevokingIsKnown(dg, y.unit.auth, y.live, device);
      case Label(device, name, seen) => RelabellingIsKnown(dg, y.unit.auth, y.live, device, name, seen);
      case _ =>
    }
  }

  lemma TrustingIfIssued(dg: Digests, y: System, m: Moved, g: Given)
    requires Known(dg, y.unit.auth, y.live)
    requires match m.issued
             case None => m.unit.auth.devices == y.unit.auth.devices
             case Some(token) =>
               m.unit.auth.devices == Trust(y.unit.auth, dg, token, g.name, g.at).devices && !Full(y.unit.auth)
    ensures Known(dg, m.unit.auth, y.live + (match m.issued case None => {} case Some(token) => {token}))
  {
    hide HasCookie, HasRecord;
    if token :| m.issued == Some(token) {
      TrustingIsKnown(dg, y.unit.auth, y.live, token, g.name, g.at);
    } else {
      assert y.live + {} == y.live;
    }
  }

  lemma {:induction false} RunStaysKnown(dg: Digests, y: System, events: seq<Event>)
    requires Known(dg, y.unit.auth, y.live)
    ensures var y' := Run(dg, y, events); Known(dg, y'.unit.auth, y'.live)
    decreases |events|
  {
    hide Next, Known;
    if events != [] {
      var n := |events| - 1;
      RunStaysKnown(dg, y, events[..n]);
      StepStaysKnown(dg, Run(dg, y, events[..n]), events[n]);
    }
  }

  /** No live cookie has the id of this one without being it. */
  ghost predicate NoCollision(dg: Digests, live: set<string>, cookie: string) {
    forall t :: t in live && dg.id(t) == dg.id(cookie) ==> t == cookie
  }

  /** In every reachable state a cookie is accepted exactly when it is live, and then as the
      device it was issued to; and there are never more devices than the limit. */
  lemma ExactlyTheLiveCookiesAreAccepted(dg: Digests, y: System, events: seq<Event>, cookie: string)
    requires Known(dg, y.unit.auth, y.live)
    requires NoCollision(dg, Run(dg, y, events).live, cookie)
    ensures var y' := Run(dg, y, events); var found := Authenticate(y'.unit.auth, dg, cookie);
            && |y'.unit.auth.devices| <= MAX_DEVICES
            && (found.Some? <==> cookie in y'.live)
            && (found.Some? ==> RecordOf(dg, y'.unit.auth.devices[found.value], cookie))
  {
    RunStaysKnown(dg, y, events);
    hide Run;
    var y' := Run(dg, y, events);
    var devices := y'.unit.auth.devices;
    var at := FindDevice(devices, dg.id(cookie));
    if at.Some? {
      assert devices[at.value] in devices;
      assert HasCookie(dg, devices[at.value], y'.live);
    }
    if cookie in y'.live {
      assert HasRecord(dg, cookie, devices);
    }
  }

  /** A revoked device's cookie stops working at once, whoever else is connected. */
  lemma RevokedCookiesAreRefused(dg: Digests, y: System, cookie: string)
    ensures Authenticate(Next(dg, y, Revoke(dg.id(cookie))).unit.auth, dg, cookie).None?
  {
    hide KeepsOrder;
    var kept := Retain(y.unit.auth.devices, dg.id(cookie));
    assert forall d :: d in kept ==> d.id != dg.id(cookie);
  }
}
