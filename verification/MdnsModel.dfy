/** The multicast DNS questions the unit reads and the answer it sends: RFC 1035, section 4.1.2,
    with the unicast bit of RFC 6762, section 5.4. */
module MdnsModel {
  import opened Options
  import opened Bytes

  const HEADER: nat := 12
  const MAX_QUESTIONS: nat := 16
  const TYPE_A: nat := 1
  const TYPE_ANY: nat := 255
  const NAME: string := "rayhunter.local"

  datatype Question = Question(name: string, qtype: nat, unicast: bool)

  function Lower(c: char): char { if 'A' <= c <= 'Z' then (c as int + 32) as char else c }

  function Lowercase(s: string): (r: string)
    ensures |r| == |s| && forall i :: 0 <= i < |s| ==> r[i] == Lower(s[i])
  {
    seq(|s|, i requires 0 <= i < |s| => Lower(s[i]))
  }

  /** `labels.join(".")` */
  function Join(labels: seq<string>): string {
    if labels == [] then "" else if |labels| == 1 then labels[0] else labels[0] + "." + Join(labels[1..])
  }

  /** How bytes read as text: any function that leaves ASCII as it is. */
  type Lossy = seq<Byte> -> string

  datatype NameRead = Cut | Read(labels: seq<string>, next: nat)

  /** A name from `pos` on: up to its final zero, or a pointer, which ends it; cut if the packet
      ends first. */
  function ReadName(packet: seq<Byte>, pos: nat, lossy: Lossy): NameRead
    decreases |packet| - pos
  {
    if pos >= |packet| then Cut
    else
      var len := packet[pos];
      if len == 0 then Read([], pos + 1)
      else if len >= 0xC0 then Read([], pos + 2)
      else if pos + 1 + len > |packet| then Cut
      else
        match ReadName(packet, pos + 1 + len, lossy)
        case Cut => Cut
        case Read(labels, next) => Read([Lowercase(lossy(packet[pos + 1..pos + 1 + len]))] + labels, next)
  }

  function ReadQuestions(packet: seq<Byte>, pos: nat, count: nat, lossy: Lossy): seq<Question>
    decreases count
  {
    if count == 0 then []
    else
      match ReadName(packet, pos, lossy)
      case Cut => []
      case Read(labels, next) =>
        if next + 4 > |packet| then []
        else
          [Question(Join(labels), Word(packet[next], packet[next + 1]), packet[next + 2] >= 0x80)]
          + ReadQuestions(packet, next + 4, count - 1, lossy)
  }

  function Questions(packet: seq<Byte>): nat
    requires |packet| >= HEADER
  {
    var n := Word(packet[4], packet[5]);
    if n <= MAX_QUESTIONS then n else MAX_QUESTIONS
  }

  /** Nothing from a packet too short or marked as a response. */
  function Parse(packet: seq<Byte>, lossy: Lossy): seq<Question> {
    if |packet| < HEADER || packet[2] >= 0x80 then []
    else ReadQuestions(packet, HEADER, Questions(packet), lossy)
  }

  predicate IsForUs(q: Question) { q.name == NAME && (q.qtype == TYPE_A || q.qtype == TYPE_ANY) }

  // Building messages.


  /** A label as RFC 1035 has it, in ASCII and without a dot. */
  predicate IsLabel(bytes: seq<Byte>) {
    1 <= |bytes| <= 63 && forall i :: 0 <= i < |bytes| ==> bytes[i] < 0x80 && bytes[i] != '.' as int
  }

  type Label = bytes: seq<Byte> | IsLabel(bytes) witness [97]

  /** A label behind its length. */
  function Prefixed(l: Label): seq<Byte> { [|l|] + l }

  function EncodeName(labels: seq<Label>): seq<Byte> {
    if labels == [] then [0] else Prefixed(labels[0]) + EncodeName(labels[1..])
  }

  /** "rayhunter" and "local" in ASCII. */
  const NAME_LABELS: seq<Label> := [
    [114, 97, 121, 104, 117, 110, 116, 101, 114],
    [108, 111, 99, 97, 108]]

  function BuildResponse(address: (Byte, Byte, Byte, Byte)): seq<Byte> {
    [0, 0, 0x84, 0x00, 0, 0, 0, 1, 0, 0, 0, 0] + EncodeName(NAME_LABELS)
    + [0, 1, 0x80, 1, 0, 0, 0, 120, 0, 4, address.0, address.1, address.2, address.3]
  }
}
