/** Removing the device's own identities from a capture on its way out. */
module Redact {
  import opened Options
  import opened Numerals
  import opened Bytes
  import opened MobileIdentity

  function Zeros(n: nat): (s: seq<Byte>)
    ensures |s| == n && forall i :: 0 <= i < n ==> s[i] == 0
  {
    seq(n, _ => 0)
  }

  /** The payload with the identity's digits zeroed: the type and the odd/even indicator stay. */
  function Redacted(payload: seq<Byte>): (r: seq<Byte>)
    ensures |r| == |payload|
  {
    match FromNas(payload)
    case None => payload
    case Some(f) => Blanked(payload, f.start, f.end)
  }

  function Blanked(payload: seq<Byte>, start: nat, end: nat): (r: seq<Byte>)
    requires start < end <= |payload|
    ensures |r| == |payload|
    ensures forall i :: 0 <= i < |r| ==>
              r[i] == if i == start then Low(payload[i]) else if start < i < end then 0 else payload[i]
  {
    payload[..start] + [Low(payload[start])] + Zeros(end - start - 1) + payload[end..]
  }

  /** In place: the type octet masked, the rest of the value filled with zeros. */
  method RedactNasIdentity(payload: array<Byte>) returns (identity: Option<Identity>)
    modifies payload
    ensures payload[..] == Redacted(old(payload[..]))
    ensures identity == match FromNas(old(payload[..])) case None => None case Some(f) => Some(f.identity)
  {
    hide Decode;
    var found := FromNas(payload[..]);
    if found.None? {
      return None;
    }
    var start, end := found.value.start, found.value.end;
    payload[start] := Low(payload[start]);
    var i := start + 1;
    while i < end
      invariant start < i <= end
      invariant forall j :: 0 <= j < payload.Length ==>
                  payload[j] == if j == start then Low(old(payload[j]))
                    else if start < j < i then 0 else old(payload[j])
    {
      payload[i] := 0;
      i := i + 1;
    }
    assert payload[..] == Blanked(old(payload[..]), start, end);
    identity := Some(found.value.identity);
  }

  /** The same sort of identity, with nothing but zeros for digits. */
  function Blank(identity: Identity): Identity {
    match identity
    case Imsi(digits) => Imsi(ZeroDigits(|digits|))
    case Imei(digits) => Imei(ZeroDigits(|digits|))
    case Imeisv(digits) => Imeisv(ZeroDigits(|digits|))
    case Tmsi(hex) => Tmsi(ZeroDigits(|hex|))
  }

  function ZeroDigits(n: nat): (s: string)
    ensures |s| == n && forall i :: 0 <= i < n ==> s[i] == '0'
  {
    seq(n, _ => '0')
  }

  lemma {:induction false} NoHalves(n: nat)
    ensures forall i :: 0 <= i < 2 * n ==> Halves(Zeros(n))[i] == 0
  {
    if n > 0 {
      NoHalves(n - 1);
      assert Zeros(n)[1..] == Zeros(n - 1);
    }
  }

  function BlankValue(value: seq<Byte>): seq<Byte>
    requires value != []
  {
    [Low(value[0])] + Zeros(|value| - 1)
  }

  /** A value blanked decodes to the blank identity. */
  lemma BlankDecodes(value: seq<Byte>)
    requires Decode(value).Some?
    ensures Decode(BlankValue(value)) == Some(Blank(Decode(value).value))
  {
    hide DigitHalves, Shown, ZeroDigits, Hex, BlankValue, AllDecimal, KindOf, BigEndian;
    BlankType(value);
    if KindOf(TypeBits(value[0])).Some? {
      BlankDigits(value);
    } else {
      BlankTmsi(value);
      HexOfZero();
      HexHasWidth(BigEndian(value[7], value[8], value[9], value[10]), 8);
    }
  }

  lemma BlankType(value: seq<Byte>)
    requires value != []
    ensures |BlankValue(value)| == |value| && TypeBits(BlankValue(value)[0]) == TypeBits(value[0])
    ensures forall k, digits :: Blank(OfKind(k, digits)) == OfKind(k, ZeroDigits(|digits|))
  {
  }

  lemma BlankTmsi(value: seq<Byte>)
    requires |value| >= 11
    ensures var v := BlankValue(value); |v| >= 11 && BigEndian(v[7], v[8], v[9], v[10]) == 0
  {
    var v := BlankValue(value);
    assert v[7] == 0 && v[8] == 0 && v[9] == 0 && v[10] == 0;
  }

  lemma HexOfZero()
    ensures Hex(0, 8) == ZeroDigits(8)
  {
    assert ZeroDigits(8) == "00000000";
    assert DigitChar(0) == '0';
    assert Hex(0, 4) == "0000";
  }

  lemma {:induction false} HexHasWidth(v: nat, width: nat)
    ensures |Hex(v, width)| == width
  {
    if width > 0 {
      HexHasWidth(v / 16, width - 1);
    }
  }

  lemma BlankDigits(value: seq<Byte>)
    requires value != []
    ensures var blank := BlankValue(value);
            && AllDecimal(DigitHalves(blank)) && |DigitHalves(blank)| == |DigitHalves(value)|
            && Shown(DigitHalves(blank)) == ZeroDigits(|DigitHalves(value)|)
  {
    var blank := BlankValue(value);
    assert blank[1..] == Zeros(|value| - 1);
    NoHalves(|value| - 1);
    assert IsOdd(blank[0]) <==> IsOdd(value[0]);
    assert DigitChar(0) == '0';
  }

  lemma BlankedValue(payload: seq<Byte>, start: nat, end: nat)
    requires start < end <= |payload|
    ensures var value := payload[start..end];
            Blanked(payload, start, end)[start..end] == BlankValue(value)
  {
  }

  lemma SameLengthAt(payload: seq<Byte>, start: nat, end: nat)
    requires 3 <= start < end <= |payload| && LengthAt(payload) == Some(start - 1)
    ensures LengthAt(Blanked(payload, start, end)) == Some(start - 1)
  {
  }

  /** What is left still decodes at the same place, to the same kind with as many digits, all
      zero; and nothing else has been touched. */
  lemma RedactedStillDecodes(payload: seq<Byte>)
    requires FromNas(payload).Some?
    ensures var f := FromNas(payload).value;
            && FromNas(Redacted(payload)) == Some(Found(Blank(f.identity), f.start, f.end))
            && forall i :: 0 <= i < |payload| && !(f.start <= i < f.end) ==> Redacted(payload)[i] == payload[i]
  {
    var f := FromNas(payload).value;
    SameLengthAt(payload, f.start, f.end);
    BlankedValue(payload, f.start, f.end);
    BlankDecodes(payload[f.start..f.end]);
    hide Decode, LengthAt, Blanked;
  }

  /** Redacting again changes nothing. */
  lemma RedactionIsIdempotent(payload: seq<Byte>)
    ensures Redacted(Redacted(payload)) == Redacted(payload)
  {
    hide *;
    RedactedIs(payload);
    if FromNas(payload).Some? {
      var f := FromNas(payload).value;
      RedactedStillDecodes(payload);
      RedactedIs(Redacted(payload));
      BlankedTwice(payload, f.start, f.end);
    }
  }

  lemma RedactedIs(payload: seq<Byte>)
    ensures FromNas(payload).None? ==> Redacted(payload) == payload
    ensures FromNas(payload).Some? ==>
              Redacted(payload) == Blanked(payload, FromNas(payload).value.start, FromNas(payload).value.end)
  {
    hide FromNas, Blanked;
  }

  lemma BlankedTwice(payload: seq<Byte>, start: nat, end: nat)
    requires start < end <= |payload|
    ensures Blanked(Blanked(payload, start, end), start, end) == Blanked(payload, start, end)
  {
    hide Blanked;
    assert Low(Low(payload[start])) == Low(payload[start]);
  }

  /** Alike but for the identity's digits: the same bytes outside the value and the same type and
      odd/even indicator. */
  ghost predicate AlikeButForDigits(p: seq<Byte>, q: seq<Byte>)
    requires FromNas(p).Some?
  {
    var f := FromNas(p).value;
    && |p| == |q|
    && (forall i :: 0 <= i < |p| && !(f.start <= i < f.end) ==> p[i] == q[i])
    && Low(p[f.start]) == Low(q[f.start])
  }

  lemma SameHeaderSameLength(p: seq<Byte>, q: seq<Byte>)
    requires |p| == |q| && FromNas(p).Some? && FromNas(q).Some?
    requires forall i :: 0 <= i < FromNas(p).value.start ==> p[i] == q[i]
    ensures FromNas(q).value.start == FromNas(p).value.start && FromNas(q).value.end == FromNas(p).value.end
  {
    hide Decode;
  }

  lemma SameStart(p: seq<Byte>, q: seq<Byte>)
    requires FromNas(p).Some? && FromNas(q).Some? && p[0] == q[0] && p[1] == q[1]
    ensures FromNas(q).value.start == FromNas(p).value.start
  {
    hide Decode;
  }

  /** Two payloads that both carry an identity come out identical exactly when they differ in
      nothing but its digits: nothing of the digits leaks, and nothing else is hidden. */
  lemma RedactionHidesExactlyTheDigits(p: seq<Byte>, q: seq<Byte>)
    requires FromNas(p).Some? && FromNas(q).Some?
    ensures Redacted(p) == Redacted(q) <==> AlikeButForDigits(p, q)
  {
    var f, g := FromNas(p).value, FromNas(q).value;
    var rp, rq := Redacted(p), Redacted(q);
    assert rp == Blanked(p, f.start, f.end) && rq == Blanked(q, g.start, g.end);
    if rp == rq {
      assert p[0] == rp[0] == rq[0] == q[0] && p[1] == rp[1] == rq[1] == q[1];
      SameStart(p, q);
      assert forall i :: 0 <= i < f.start ==> p[i] == rp[i] && q[i] == rq[i];
      SameHeaderSameLength(p, q);
      hide FromNas, Blanked, Redacted;
      assert forall i :: 0 <= i < |p| && !(f.start <= i < f.end) ==> p[i] == rp[i] && q[i] == rq[i];
    }
    if AlikeButForDigits(p, q) {
      SameHeaderSameLength(p, q);
      hide FromNas, Blanked, Redacted;
      assert rp == rq;
    }
  }

  // The report.

  class RedactionReport {
    var imsi: nat
    var imei: nat
    var imeisv: nat
    var tmsi: nat
    var messagesScanned: nat

    constructor ()
      ensures Total() == 0 && messagesScanned == 0
    {
      imsi, imei, imeisv, tmsi, messagesScanned := 0, 0, 0, 0, 0;
    }

    function Total(): nat
      reads this
    {
      imsi + imei + imeisv + tmsi
    }

    /** The counts of each kind. */
    function Counts(): (nat, nat, nat, nat)
      reads this
    {
      (imsi, imei, imeisv, tmsi)
    }

    method Record(identity: Identity)
      modifies this
      ensures Counts() == Added(old(Counts()), identity) && Total() == old(Total()) + 1
      ensures messagesScanned == old(messagesScanned)
    {
      match identity
      case Imsi(_) => imsi := imsi + 1;
      case Imei(_) => imei := imei + 1;
      case Imeisv(_) => imeisv := imeisv + 1;
      case Tmsi(_) => tmsi := tmsi + 1;
    }
  }

  function Added(counts: (nat, nat, nat, nat), identity: Identity): (nat, nat, nat, nat) {
    match identity
    case Imsi(_) => (counts.0 + 1, counts.1, counts.2, counts.3)
    case Imei(_) => (counts.0, counts.1 + 1, counts.2, counts.3)
    case Imeisv(_) => (counts.0, counts.1, counts.2 + 1, counts.3)
    case Tmsi(_) => (counts.0, counts.1, counts.2, counts.3 + 1)
  }

  /** A frame of the capture; only LTE NAS frames can carry an identity. */
  datatype Frame = Frame(lteNas: bool, payload: seq<Byte>)

  /** A frame as it leaves. */
  function RedactedFrame(frame: Frame): Frame {
    if frame.lteNas then frame.(payload := Redacted(frame.payload)) else frame
  }

  function RedactedFrames(frames: seq<Frame>): seq<Frame> {
    if frames == [] then [] else RedactedFrames(frames[..|frames| - 1]) + [RedactedFrame(frames[|frames| - 1])]
  }

  function Looks(frame: Frame): nat { if frame.lteNas then 1 else 0 }

  function Removes(frame: Frame): nat { if frame.lteNas && FromNas(frame.payload).Some? then 1 else 0 }

  function Scanned(frames: seq<Frame>): nat {
    if frames == [] then 0 else Scanned(frames[..|frames| - 1]) + Looks(frames[|frames| - 1])
  }

  /** How many frames carry an identity that is found. */
  function Carriers(frames: seq<Frame>): nat {
    if frames == [] then 0 else Carriers(frames[..|frames| - 1]) + Removes(frames[|frames| - 1])
  }

  method WriteFrame(frame: Frame, report: RedactionReport) returns (written: Frame)
    modifies report
    ensures written == RedactedFrame(frame)
    ensures report.messagesScanned == old(report.messagesScanned) + Looks(frame)
    ensures report.Total() == old(report.Total()) + Removes(frame)
  {
    hide FromNas, Redacted;
    if !frame.lteNas {
      return frame;
    }
    report.messagesScanned := report.messagesScanned + 1;
    var payload := new Byte[|frame.payload|](j requires 0 <= j < |frame.payload| => frame.payload[j]);
    assert payload[..] == frame.payload;
    var identity := RedactNasIdentity(payload);
    if identity.Some? {
      report.Record(identity.value);
    }
    written := frame.(payload := payload[..]);
  }

  /** The loop that writes a capture, redacted or as it is. It counts every frame it looked at and
      every identity it removed, so it never reports more removals than looks. */
  method WriteCapture(frames: seq<Frame>, redact: bool) returns (written: seq<Frame>, report: RedactionReport)
    ensures fresh(report)
    ensures written == if redact then RedactedFrames(frames) else frames
    ensures report.messagesScanned == if redact then Scanned(frames) else 0
    ensures report.Total() == if redact then Carriers(frames) else 0
    ensures report.Total() <= report.messagesScanned
  {
    hide Redacted, FromNas, RedactedFrame, Removes;
    report := new RedactionReport();
    written := [];
    var i := 0;
    while i < |frames|
      invariant i <= |frames| && fresh(report)
      invariant written == if redact then RedactedFrames(frames[..i]) else frames[..i]
      invariant report.messagesScanned == if redact then Scanned(frames[..i]) else 0
      invariant report.Total() == if redact then Carriers(frames[..i]) else 0
    {
      var frame := frames[i];
      assert frames[..i + 1][..i] == frames[..i];
      if redact {
        frame := WriteFrame(frame, report);
      }
      written := written + [frame];
      i := i + 1;
    }
    assert frames[..|frames|] == frames;
    NoMoreRemovedThanScanned(frames);
  }

  lemma {:induction false} NoMoreRemovedThanScanned(frames: seq<Frame>)
    ensures Carriers(frames) <= Scanned(frames)
  {
    hide FromNas;
    if frames != [] {
      NoMoreRemovedThanScanned(frames[..|frames| - 1]);
    }
  }
}
