/** The question parser's loops, and what they promise: truncation only loses questions at the
    end, an encoded query reads back, a response asks nothing. */
module Mdns {
  import opened Options
  import opened Bytes
  import opened MdnsModel

  /** The inner loop: labels until a zero or a pointer. */
  method ReadLabels(packet: seq<Byte>, start: nat, lossy: Lossy) returns (labels: Option<seq<string>>, pos: nat)
    ensures labels.None? <==> ReadName(packet, start, lossy).Cut?
    ensures labels.Some? ==> ReadName(packet, start, lossy) == Read(labels.value, pos)
  {
    hide Lowercase;
    var found: seq<string> := [];
    pos := start;
    while true
      invariant ReadName(packet, start, lossy) ==
                match ReadName(packet, pos, lossy)
                case Cut => Cut
                case Read(rest, next) => Read(found + rest, next)
      decreases |packet| - pos
    {
      if pos >= |packet| {
        return None, pos;
      }
      var len := packet[pos];
      if len == 0 {
        return Some(found), pos + 1;
      }
      if len >= 0xC0 {
        return Some(found), pos + 2;
      }
      var end := pos + 1 + len;
      if end > |packet| {
        return None, pos;
      }
      ghost var rest := ReadName(packet, end, lossy);
      if rest.Read? {
        assert found + ([Lowercase(lossy(packet[pos + 1..end]))] + rest.labels)
            == (found + [Lowercase(lossy(packet[pos + 1..end]))]) + rest.labels;
      }
      found := found + [Lowercase(lossy(packet[pos + 1..end]))];
      pos := end;
    }
  }

  lemma QuestionsGoOn(packet: seq<Byte>, pos: nat, count: nat, out: seq<Question>, lossy: Lossy)
    requires count > 0
    ensures out + ReadQuestions(packet, pos, count, lossy) ==
            match ReadName(packet, pos, lossy)
            case Cut => out
            case Read(labels, next) =>
              if next + 4 > |packet| then out
              else
                var q := Question(Join(labels), Word(packet[next], packet[next + 1]), packet[next + 2] >= 0x80);
                (out + [q]) + ReadQuestions(packet, next + 4, count - 1, lossy)
  {
    hide ReadName, Join, Word;
    var name := ReadName(packet, pos, lossy);
    if name.Read? && name.next + 4 <= |packet| {
      var q := Question(Join(name.labels), Word(packet[name.next], packet[name.next + 1]),
                        packet[name.next + 2] >= 0x80);
      var rest := ReadQuestions(packet, name.next + 4, count - 1, lossy);
      assert out + ([q] + rest) == (out + [q]) + rest;
    } else {
      assert out + [] == out;
    }
  }

  lemma ParseReads(packet: seq<Byte>, count: nat, lossy: Lossy)
    requires |packet| >= HEADER && packet[2] < 0x80 && Questions(packet) == count
    ensures Parse(packet, lossy) == ReadQuestions(packet, HEADER, count, lossy)
  {
  }

  /** The outer loop: at most sixteen questions, stopping at the first the packet cuts short. */
  method ParseQuestions(packet: seq<Byte>, lossy: Lossy) returns (out: seq<Question>)
    ensures out == Parse(packet, lossy)
  {
    out := [];
    if |packet| < HEADER || packet[2] >= 0x80 {
      return;
    }
    out := ReadAll(packet, Questions(packet), lossy);
    ParseReads(packet, Questions(packet), lossy);
  }

  method ReadAll(packet: seq<Byte>, count: nat, lossy: Lossy) returns (out: seq<Question>)
    ensures out == ReadQuestions(packet, HEADER, count, lossy)
  {
    hide *;
    out := [];
    var pos: nat := HEADER;
    var i := 0;
    assert out + ReadQuestions(packet, pos, count, lossy) == ReadQuestions(packet, pos, count, lossy);
    while i < count
      invariant i <= count
      invariant ReadQuestions(packet, HEADER, count, lossy) == out + ReadQuestions(packet, pos, count - i, lossy)
    {
      QuestionsGoOn(packet, pos, count - i, out, lossy);
      var labels, next := ReadLabels(packet, pos, lossy);
      if labels.None? || next + 4 > |packet| {
        return;
      }
      out := out + [Question(Join(labels.value), Word(packet[next], packet[next + 1]), packet[next + 2] >= 0x80)];
      pos := next + 4;
      i := i + 1;
    }
    NothingAsked(packet, pos, out, lossy);
  }

  lemma NothingAsked(packet: seq<Byte>, pos: nat, out: seq<Question>, lossy: Lossy)
    ensures out + ReadQuestions(packet, pos, 0, lossy) == out
  {
  }

  /** The response is appended piece by piece. */
  method WriteResponse(address: (Byte, Byte, Byte, Byte)) returns (p: seq<Byte>)
    ensures p == BuildResponse(address)
  {
    hide IsLabel;
    p := [0, 0, 0x84, 0x00, 0, 0, 0, 1, 0, 0, 0, 0];
    p := WriteName(p, NAME_LABELS);
    hide EncodeName;
    p := p + [0, 1] + [0x80, 1] + [0, 0, 0, 120] + [0, 4] + [address.0, address.1, address.2, address.3];
  }

  method WriteName(before: seq<Byte>, labels: seq<Label>) returns (p: seq<Byte>)
    ensures p == before + EncodeName(labels)
  {
    hide IsLabel;
    p := before;
    for i := 0 to |labels|
      invariant before + EncodeName(labels) == p + EncodeName(labels[i..])
    {
      hide EncodeName, Prefixed;
      NameGoesOn(p, labels, i);
      p := p + Prefixed(labels[i]);
    }
    p := p + [0];
  }

  lemma NameGoesOn(p: seq<Byte>, labels: seq<Label>, i: nat)
    requires i < |labels|
    ensures p + EncodeName(labels[i..]) == (p + Prefixed(labels[i])) + EncodeName(labels[i + 1..])
  {
    hide IsLabel, Prefixed;
    assert labels[i..][1..] == labels[i + 1..];
  }

  // Truncation.

  lemma {:induction false} TruncatedName(packet: seq<Byte>, k: nat, pos: nat, lossy: Lossy)
    requires k <= |packet|
    ensures var short := ReadName(packet[..k], pos, lossy);
            short.Cut? || short == ReadName(packet, pos, lossy)
    decreases |packet| - pos
  {
    if pos < k {
      var len := packet[pos];
      if 0 < len < 0xC0 && pos + 1 + len <= k {
        TruncatedName(packet, k, pos + 1 + len, lossy);
        assert packet[..k][pos + 1..pos + 1 + len] == packet[pos + 1..pos + 1 + len];
      }
    }
  }

  lemma {:induction false} TruncatedQuestions(packet: seq<Byte>, k: nat, pos: nat, count: nat, lossy: Lossy)
    requires k <= |packet|
    ensures ReadQuestions(packet[..k], pos, count, lossy) <= ReadQuestions(packet, pos, count, lossy)
    decreases count
  {
    hide ReadName, Join;
    TruncatedName(packet, k, pos, lossy);
    if count > 0 && ReadName(packet[..k], pos, lossy).Read? {
      TruncatedQuestions(packet, k, ReadName(packet, pos, lossy).next + 4, count - 1, lossy);
    }
  }

  /** A truncated packet gives the first of the questions of the whole, unchanged. */
  lemma TruncationLosesOnlyTheEnd(packet: seq<Byte>, k: nat, lossy: Lossy)
    requires k <= |packet|
    ensures Parse(packet[..k], lossy) <= Parse(packet, lossy)
  {
    if k >= HEADER {
      TruncatedQuestions(packet, k, HEADER, Questions(packet), lossy);
    }
  }

  // Round trip.

  datatype Asked = Asked(labels: seq<Label>, qtype: (Byte, Byte), qclass: (Byte, Byte))

  function EncodeQuestion(a: Asked): seq<Byte> {
    EncodeName(a.labels) + [a.qtype.0, a.qtype.1, a.qclass.0, a.qclass.1]
  }

  function EncodeQuestions(questions: seq<Asked>): seq<Byte> {
    if questions == [] then [] else EncodeQuestion(questions[0]) + EncodeQuestions(questions[1..])
  }

  /** The text of ASCII bytes. */
  function Text(bytes: seq<Byte>): (s: string)
    requires forall i :: 0 <= i < |bytes| ==> bytes[i] < 0x80
    ensures |s| == |bytes| && forall i :: 0 <= i < |s| ==> s[i] as int == bytes[i]
  {
    seq(|bytes|, i requires 0 <= i < |bytes| => bytes[i] as char)
  }

  ghost predicate KeepsAscii(lossy: Lossy) {
    forall bytes: seq<Byte> {:trigger lossy(bytes)} ::
      (forall i :: 0 <= i < |bytes| ==> bytes[i] < 0x80) ==> lossy(bytes) == Text(bytes)
  }

  function LabelText(l: Label): string { Lowercase(Text(l)) }

  function LabelTexts(labels: seq<Label>): (r: seq<string>)
    ensures |r| == |labels| && forall i :: 0 <= i < |r| ==> r[i] == LabelText(labels[i])
  {
    seq(|labels|, i requires 0 <= i < |labels| => LabelText(labels[i]))
  }

  /** The question as it should come out: lowercased, with the unicast bit out of the class. */
  function Heard(a: Asked): Question {
    Question(Join(LabelTexts(a.labels)), Word(a.qtype.0, a.qtype.1), a.qclass.0 >= 0x80)
  }

  function HeardAll(questions: seq<Asked>): (r: seq<Question>)
    ensures |r| == |questions|
    ensures forall i :: 0 <= i < |r| ==> r[i] == Heard(questions[i])
  {
    if questions == [] then [] else [Heard(questions[0])] + HeardAll(questions[1..])
  }

  lemma LabelReadsBack(packet: seq<Byte>, pos: nat, l: Label, lossy: Lossy)
    requires KeepsAscii(lossy)
    requires pos + |Prefixed(l)| <= |packet| && packet[pos..pos + |Prefixed(l)|] == Prefixed(l)
    ensures ReadName(packet, pos, lossy) ==
            match ReadName(packet, pos + |Prefixed(l)|, lossy)
            case Cut => Cut
            case Read(labels, next) => Read([LabelText(l)] + labels, next)
  {
    hide Text, Lowercase;
    var slice := packet[pos..pos + |Prefixed(l)|];
    assert packet[pos] == slice[0] && packet[pos + 1..pos + 1 + |l|] == slice[1..];
  }

  lemma Between(before: seq<Byte>, head: seq<Byte>, rest: seq<Byte>, after: seq<Byte>)
    ensures var packet := before + (head + rest) + after;
            packet == (before + head) + rest + after && packet[|before|..|before| + |head|] == head
  {
  }

  lemma FirstLabelText(labels: seq<Label>)
    requires labels != []
    ensures LabelTexts(labels) == [LabelText(labels[0])] + LabelTexts(labels[1..])
    ensures EncodeName(labels) == Prefixed(labels[0]) + EncodeName(labels[1..])
  {
    hide IsLabel, LabelText, Prefixed;
  }

  lemma NoLabels(before: seq<Byte>, after: seq<Byte>, lossy: Lossy)
    ensures EncodeName([]) == [0] && LabelTexts([]) == []
    ensures ReadName(before + [0] + after, |before|, lossy) == Read([], |before| + 1)
  {
    assert (before + [0] + after)[|before|] == 0;
  }

  lemma {:induction false} NameReadsBack(before: seq<Byte>, labels: seq<Label>, after: seq<Byte>, lossy: Lossy)
    requires KeepsAscii(lossy)
    ensures ReadName(before + EncodeName(labels) + after, |before|, lossy)
            == Read(LabelTexts(labels), |before| + |EncodeName(labels)|)
    decreases |labels|
  {
    hide *;
    if labels == [] {
      NoLabels(before, after, lossy);
    } else {
      var head, rest := Prefixed(labels[0]), EncodeName(labels[1..]);
      FirstLabelText(labels);
      Between(before, head, rest, after);
      LabelReadsBack(before + EncodeName(labels) + after, |before|, labels[0], lossy);
      NameReadsBack(before + head, labels[1..], after, lossy);
    }
  }

  /** The first question of what is left. */
  lemma QuestionReadsBack(before: seq<Byte>, a: Asked, after: seq<Byte>, count: nat, lossy: Lossy)
    requires KeepsAscii(lossy) && count > 0
    ensures var packet, next := before + EncodeQuestion(a) + after, |before + EncodeQuestion(a)|;
            ReadQuestions(packet, |before|, count, lossy) == [Heard(a)] + ReadQuestions(packet, next, count - 1, lossy)
  {
    hide ReadName, EncodeName, Join, KeepsAscii;
    var name, tail := EncodeName(a.labels), [a.qtype.0, a.qtype.1, a.qclass.0, a.qclass.1];
    var packet := before + EncodeQuestion(a) + after;
    assert packet == before + name + (tail + after);
    NameReadsBack(before, a.labels, tail + after, lossy);
    TailOf(before + name, a, after);
    assert packet == before + name + tail + after;
  }

  lemma TailOf(before: seq<Byte>, a: Asked, after: seq<Byte>)
    ensures var packet, n := before + [a.qtype.0, a.qtype.1, a.qclass.0, a.qclass.1] + after, |before|;
            packet[n] == a.qtype.0 && packet[n + 1] == a.qtype.1 && packet[n + 2] == a.qclass.0
  {
  }

  lemma {:induction false} QuestionsReadBack(before: seq<Byte>, questions: seq<Asked>, after: seq<Byte>,
                                             count: nat, lossy: Lossy)
    requires KeepsAscii(lossy)
    requires count <= |questions|
    ensures ReadQuestions(before + EncodeQuestions(questions) + after, |before|, count, lossy)
            == HeardAll(questions)[..count]
    decreases |questions|
  {
    hide ReadName, EncodeQuestion, Heard, KeepsAscii;
    if count > 0 {
      var a, rest := questions[0], EncodeQuestions(questions[1..]);
      hide ReadQuestions;
      var packet := before + EncodeQuestions(questions) + after;
      assert packet == before + EncodeQuestion(a) + (rest + after);
      QuestionReadsBack(before, a, rest + after, count, lossy);
      assert packet == (before + EncodeQuestion(a)) + rest + after;
      QuestionsReadBack(before + EncodeQuestion(a), questions[1..], after, count - 1, lossy);
      assert HeardAll(questions)[..count] == [Heard(a)] + HeardAll(questions[1..])[..count - 1];
    }
  }

  function Least(a: nat, b: nat): (m: nat)
    ensures m <= a && m <= b
  {
    if a <= b then a else b
  }

  function Header(id: (Byte, Byte), flags: (Byte, Byte), count: nat, others: seq<Byte>): seq<Byte>
    requires count < 0x1_0000 && |others| == 6
  {
    [id.0, id.1, flags.0, flags.1, count / 256, count % 256] + others
  }

  /** A query of dot-free ASCII labels reads back, lowercased and with its unicast bits, whatever
      follows the questions; of more than sixteen, the first sixteen. */
  lemma QueryReadsBack(id: (Byte, Byte), flags: (Byte, Byte), others: seq<Byte>, questions: seq<Asked>,
                       after: seq<Byte>, lossy: Lossy)
    requires flags.0 < 0x80 && |others| == 6 && |questions| < 0x1_0000
    requires KeepsAscii(lossy)
    ensures Parse(Header(id, flags, |questions|, others) + EncodeQuestions(questions) + after, lossy)
            == HeardAll(questions)[..Least(|questions|, MAX_QUESTIONS)]
  {
    hide *;
    var header, body := Header(id, flags, |questions|, others), EncodeQuestions(questions) + after;
    var count := Least(|questions|, MAX_QUESTIONS);
    HeaderRead(id, flags, |questions|, others, body);
    ParseReads(header + body, count, lossy);
    QuestionsReadBack(header, questions, after, count, lossy);
    assert header + EncodeQuestions(questions) + after == header + body;
  }

  lemma HeaderRead(id: (Byte, Byte), flags: (Byte, Byte), count: nat, others: seq<Byte>, body: seq<Byte>)
    requires flags.0 < 0x80 && count < 0x1_0000 && |others| == 6
    ensures var packet := Header(id, flags, count, others) + body;
            && |Header(id, flags, count, others)| == HEADER && packet[2] < 0x80
            && Questions(packet) == Least(count, MAX_QUESTIONS)
  {
    var packet := Header(id, flags, count, others) + body;
    assert packet[2] == flags.0 && packet[4] == count / 256 && packet[5] == count % 256;
  }

  /** No response the unit builds asks anything, whatever the address. */
  lemma ResponsesAskNothing(address: (Byte, Byte, Byte, Byte), lossy: Lossy)
    ensures Parse(BuildResponse(address), lossy) == []
  {
    assert BuildResponse(address)[2] == 0x84;
  }

  // Which questions are answered.

  predicate DotFree(s: string) { forall i :: 0 <= i < |s| ==> s[i] != '.' }

  function FirstDot(s: string): nat { if s == "" || s[0] == '.' then 0 else 1 + FirstDot(s[1..]) }

  lemma {:induction false} DotAfter(a: string, s: string)
    requires DotFree(a)
    ensures FirstDot(a + "." + s) == |a|
  {
    if a != "" {
      assert (a + "." + s)[1..] == a[1..] + "." + s;
      DotAfter(a[1..], s);
    }
  }

  lemma FirstLabel(a: string, b: string, s: string, t: string)
    requires DotFree(a) && DotFree(b) && a + "." + s == b + "." + t
    ensures a == b && s == t
  {
    DotAfter(a, s);
    DotAfter(b, t);
    var whole := a + "." + s;
    assert a == whole[..|a|] == b;
    assert s == whole[|a| + 1..] == t;
  }

  lemma JoinHasDot(labels: seq<string>)
    requires |labels| > 1
    ensures !DotFree(Join(labels))
  {
    assert Join(labels)[|labels[0]|] == '.';
  }

  /** Dot-free labels can be told from the name they are joined into. */
  lemma {:induction false} JoinTellsLabels(a: seq<string>, b: seq<string>)
    requires a != [] && b != [] && Join(a) == Join(b)
    requires (forall i :: 0 <= i < |a| ==> DotFree(a[i])) && (forall i :: 0 <= i < |b| ==> DotFree(b[i]))
    ensures a == b
    decreases |a|
  {
    if |a| == 1 && |b| == 1 {
      assert a == [a[0]] && b == [b[0]];
    } else if |a| == 1 {
      JoinHasDot(b);
      assert false;
    } else if |b| == 1 {
      JoinHasDot(a);
      assert false;
    } else {
      FirstLabel(a[0], b[0], Join(a[1..]), Join(b[1..]));
      JoinTellsLabels(a[1..], b[1..]);
      assert a == [a[0]] + a[1..] && b == [b[0]] + b[1..];
    }
  }

  /** Of the questions that can be asked, the unit answers exactly those for its name, in any case,
      of type A or ANY. */
  lemma AnswersExactlyItsName(a: Asked)
    requires a.labels != []
    ensures IsForUs(Heard(a)) <==>
              LabelTexts(a.labels) == ["rayhunter", "local"]
              && (Word(a.qtype.0, a.qtype.1) == TYPE_A || Word(a.qtype.0, a.qtype.1) == TYPE_ANY)
  {
    var ours := ["rayhunter", "local"];
    assert Join(ours[1..]) == "local";
    assert Join(ours) == NAME;
    var texts := LabelTexts(a.labels);
    forall i | 0 <= i < |texts| ensures DotFree(texts[i]) {
      LowercaseIsDotFree(a.labels[i]);
    }
    if Join(texts) == NAME {
      JoinTellsLabels(texts, ours);
    }
  }

  lemma LowercaseIsDotFree(l: Label)
    ensures DotFree(LabelText(l))
  {
  }
}
