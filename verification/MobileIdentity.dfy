/** The identities a device sends about itself: the EPS mobile identity of 3GPP TS 24.301,
    section 9.9.3.12, decoded from raw payloads. */
module MobileIdentity {
  import opened Options
  import opened Numerals
  import opened Bytes

  datatype Kind = ImsiKind | ImeiKind | ImeisvKind

  datatype Identity =
    | Imsi(digits: string)
    | Imei(digits: string)
    | Imeisv(digits: string)
    | Tmsi(hex: string)

  const TYPE_GUTI: nat := 6

  function TypeCode(k: Kind): nat {
    match k case ImsiKind => 1 case ImeiKind => 2 case ImeisvKind => 3
  }

  function KindOf(code: nat): (k: Option<Kind>)
    ensures k.Some? ==> TypeCode(k.value) == code
  {
    if code == 1 then Some(ImsiKind) else if code == 2 then Some(ImeiKind)
    else if code == 3 then Some(ImeisvKind) else None
  }

  function OfKind(k: Kind, digits: string): Identity {
    match k case ImsiKind => Imsi(digits) case ImeiKind => Imei(digits) case ImeisvKind => Imeisv(digits)
  }

  /** Bit 4 of the type octet. */
  predicate IsOdd(first: Byte) { Low(first) >= 8 }

  /** Bits 1 to 3. */
  function TypeBits(first: Byte): nat { if IsOdd(first) then Low(first) - 8 else Low(first) }

  // What the encoding means.

  /** The half octets of the value, low half first. */
  function Halves(bytes: seq<Byte>): (s: seq<Nibble>)
    ensures |s| == 2 * |bytes|
  {
    if bytes == [] then [] else [Low(bytes[0]), High(bytes[0])] + Halves(bytes[1..])
  }

  /** The halves that carry digits: the high half of the type octet, then all the others, less the
      last when the count is even. A value of one octet has its one digit whatever it says. */
  function DigitHalves(bytes: seq<Byte>): seq<Nibble>
    requires bytes != []
  {
    var rest := Halves(bytes[1..]);
    [High(bytes[0])] + (if IsOdd(bytes[0]) || rest == [] then rest else rest[..|rest| - 1])
  }

  predicate AllDecimal(s: seq<Nibble>) { forall i :: 0 <= i < |s| ==> s[i] < 10 }

  function Shown(s: seq<Nibble>): (digits: string)
    requires AllDecimal(s)
    ensures |digits| == |s| && AllDigits(digits)
    ensures forall i :: 0 <= i < |s| ==> digits[i] == DigitChar(s[i])
  {
    seq(|s|, i requires 0 <= i < |s| => DigitChar(s[i]))
  }

  function HexDigit(n: Nibble): char { if n < 10 then DigitChar(n) else ('a' as int + n - 10) as char }

  function Pow16(n: nat): nat { if n == 0 then 1 else 16 * Pow16(n - 1) }

  /** A number in that many hexadecimal digits, padded with zeros. */
  function Hex(v: nat, width: nat): string {
    if width == 0 then "" else Hex(v / 16, width - 1) + [HexDigit(v % 16)]
  }

  function BigEndian(a: Byte, b: Byte, c: Byte, d: Byte): (v: nat)
    ensures v < 0x1_0000_0000
  {
    0x100_0000 * a + 0x1_0000 * b + 0x100 * c + d
  }

  function Decode(bytes: seq<Byte>): Option<Identity> {
    if bytes == [] then None
    else
      var code := TypeBits(bytes[0]);
      var kind := KindOf(code);
      if kind.Some? then
        if AllDecimal(DigitHalves(bytes)) then Some(OfKind(kind.value, Shown(DigitHalves(bytes)))) else None
      else if code == TYPE_GUTI then
        if |bytes| < 11 then None else Some(Tmsi(Hex(BigEndian(bytes[7], bytes[8], bytes[9], bytes[10]), 8)))
      else None
  }

  function FromDigit(n: Nibble): Option<char> { if n < 10 then Some(DigitChar(n)) else None }

  lemma ShownAppend(s: seq<Nibble>, n: Nibble)
    requires AllDecimal(s) && n < 10
    ensures AllDecimal(s + [n]) && Shown(s + [n]) == Shown(s) + [DigitChar(n)]
  {
  }

  lemma {:induction false} HalvesAppend(bytes: seq<Byte>, b: Byte)
    ensures Halves(bytes + [b]) == Halves(bytes) + [Low(b), High(b)]
  {
    if bytes == [] {
      assert [b][1..] == [];
    } else {
      assert (bytes + [b])[1..] == bytes[1..] + [b];
      HalvesAppend(bytes[1..], b);
    }
  }

  lemma NotDecimal(s: seq<Nibble>, i: nat)
    requires i < |s| && s[i] >= 10
    ensures !AllDecimal(s)
  {
  }

  lemma {:induction false} HalvesAt(bytes: seq<Byte>, i: nat)
    requires i < |bytes|
    ensures Halves(bytes)[2 * i] == Low(bytes[i]) && Halves(bytes)[2 * i + 1] == High(bytes[i])
  {
    if i > 0 {
      HalvesAt(bytes[1..], i - 1);
      assert Halves(bytes)[2 * i] == Halves(bytes[1..])[2 * (i - 1)];
      assert Halves(bytes)[2 * i + 1] == Halves(bytes[1..])[2 * (i - 1) + 1];
    }
  }

  /** The digits so far: the type octet's and both halves of the octets before `i`. */
  function Before(bytes: seq<Byte>, i: nat): seq<Nibble>
    requires 1 <= i <= |bytes|
  {
    [High(bytes[0])] + Halves(bytes[1..i])
  }

  lemma BeforeGrows(bytes: seq<Byte>, i: nat)
    requires 1 <= i < |bytes|
    ensures Before(bytes, i + 1) == Before(bytes, i) + [Low(bytes[i])] + [High(bytes[i])]
    ensures DigitHalves(bytes)[|Before(bytes, i)|] == Low(bytes[i])
    ensures (i + 1 < |bytes| || IsOdd(bytes[0])) ==>
              |DigitHalves(bytes)| > |Before(bytes, i)| + 1
              && DigitHalves(bytes)[|Before(bytes, i)| + 1] == High(bytes[i])
    ensures i + 1 == |bytes| ==>
              DigitHalves(bytes) == if IsOdd(bytes[0]) then Before(bytes, i + 1) else Before(bytes, i) + [Low(bytes[i])]
  {
    assert bytes[1..i] + [bytes[i]] == bytes[1..i + 1];
    HalvesAppend(bytes[1..i], bytes[i]);
    HalvesAt(bytes[1..], i - 1);
    var rest := Halves(bytes[1..]);
    if i + 1 == |bytes| {
      assert bytes[1..i + 1] == bytes[1..];
      assert rest == Halves(bytes[1..i]) + [Low(bytes[i]), High(bytes[i])];
      assert rest[..|rest| - 1] == Halves(bytes[1..i]) + [Low(bytes[i])];
    }
  }

  /** The decoder's loop over the octets, leaving the last high half of an even count alone. */
  method DecodeEpsMobileIdentity(bytes: seq<Byte>) returns (identity: Option<Identity>)
    ensures identity == Decode(bytes)
  {
    hide Shown, Halves, DigitHalves, Before, Hex, AllDecimal;
    if bytes == [] {
      return None;
    }
    var first := bytes[0];
    var code, odd := TypeBits(first), IsOdd(first);
    if code == TYPE_GUTI {
      identity := if |bytes| < 11 then None else Some(Tmsi(Hex(BigEndian(bytes[7], bytes[8], bytes[9], bytes[10]), 8)));
      return;
    }
    var kind := KindOf(code);
    if kind.None? {
      return None;
    }
    var digits := DecodeDigits(bytes);
    identity := if digits.Some? then Some(OfKind(kind.value, digits.value)) else None;
  }

  method DecodeDigits(bytes: seq<Byte>) returns (digits: Option<string>)
    requires bytes != []
    ensures digits == if AllDecimal(DigitHalves(bytes)) then Some(Shown(DigitHalves(bytes))) else None
  {
    hide Shown, Halves, AllDecimal;
    var digit := FromDigit(High(bytes[0]));
    assert DigitHalves(bytes)[0] == High(bytes[0]);
    if digit.None? {
      NotDecimal(DigitHalves(bytes), 0);
      return None;
    }
    OneDigit(bytes);
    hide DigitHalves, Before;
    var s := [digit.value];
    var i := 1;
    while i < |bytes|
      invariant 1 <= i <= |bytes|
      invariant AllDecimal(Before(bytes, i)) && s == Shown(Before(bytes, i))
      invariant i == |bytes| ==> DigitHalves(bytes) == Before(bytes, i)
    {
      BeforeGrows(bytes, i);
      ghost var n := |Before(bytes, i)|;
      digit := FromDigit(Low(bytes[i]));
      if digit.None? {
        NotDecimal(DigitHalves(bytes), n);
        return None;
      }
      ShownAppend(Before(bytes, i), Low(bytes[i]));
      s := s + [digit.value];
      var isLast := i == |bytes| - 1;
      if isLast && !IsOdd(bytes[0]) {
        return Some(s);
      }
      digit := FromDigit(High(bytes[i]));
      if digit.None? {
        NotDecimal(DigitHalves(bytes), n + 1);
        return None;
      }
      ShownAppend(Before(bytes, i) + [Low(bytes[i])], High(bytes[i]));
      s := s + [digit.value];
      i := i + 1;
    }
    digits := Some(s);
  }

  lemma OneDigit(bytes: seq<Byte>)
    requires bytes != [] && High(bytes[0]) < 10
    ensures AllDecimal(Before(bytes, 1)) && Shown(Before(bytes, 1)) == [DigitChar(High(bytes[0]))]
    ensures |bytes| == 1 ==> DigitHalves(bytes) == Before(bytes, 1)
  {
    assert Before(bytes, 1) == [High(bytes[0])];
    assert [High(bytes[0])][1..] == [];
  }

  // The encoding, and that decoding undoes it.

  function Pairs(digits: string, filler: Nibble): seq<Byte>
    requires AllDigits(digits)
  {
    if digits == "" then []
    else if |digits| == 1 then [Octet(filler, DigitValue(digits[0]))]
    else [Octet(DigitValue(digits[1]), DigitValue(digits[0]))] + Pairs(digits[2..], filler)
  }

  /** The first digit shares the type octet with the odd/even indicator. */
  function FirstOctet(k: Kind, digits: string): Byte
    requires digits != "" && AllDigits(digits)
  {
    Octet(DigitValue(digits[0]), 8 * (|digits| % 2) + TypeCode(k))
  }

  /** The other digits go two to an octet, low half first, the last high half of an even count
      being filler. */
  function Encode(k: Kind, digits: string, filler: Nibble): seq<Byte>
    requires digits != "" && AllDigits(digits)
  {
    [FirstOctet(k, digits)] + Pairs(digits[1..], filler)
  }

  function Values(digits: string): (s: seq<Nibble>)
    requires AllDigits(digits)
    ensures |s| == |digits| && AllDecimal(s)
    ensures forall i :: 0 <= i < |s| ==> s[i] == DigitValue(digits[i])
  {
    seq(|digits|, i requires 0 <= i < |digits| => DigitValue(digits[i]))
  }

  lemma FirstHalves(b: Byte, rest: seq<Byte>)
    ensures Halves([b] + rest) == [Low(b), High(b)] + Halves(rest)
  {
    assert ([b] + rest)[1..] == rest;
  }

  lemma FirstValues(digits: string)
    requires |digits| >= 2 && AllDigits(digits)
    ensures Values(digits) == [DigitValue(digits[0]), DigitValue(digits[1])] + Values(digits[2..])
  {
  }

  function Padding(count: nat, filler: Nibble): seq<Nibble> { if count % 2 == 0 then [] else [filler] }

  lemma PaddingOfRest(count: nat, filler: Nibble)
    requires count >= 2
    ensures Padding(count, filler) == Padding(count - 2, filler)
  {
  }

  lemma FewHalves(digits: string, filler: Nibble)
    requires AllDigits(digits) && |digits| <= 1
    ensures Halves(Pairs(digits, filler)) == Values(digits) + Padding(|digits|, filler)
  {
    if |digits| == 1 {
      FirstHalves(Octet(filler, DigitValue(digits[0])), []);
      assert Values(digits) == [DigitValue(digits[0])];
    }
  }

  lemma FirstPair(digits: string, filler: Nibble)
    requires AllDigits(digits) && |digits| >= 2
    ensures AllDigits(digits[2..])
    ensures Pairs(digits, filler) == [Octet(DigitValue(digits[1]), DigitValue(digits[0]))] + Pairs(digits[2..], filler)
  {
    hide Octet, DigitValue, IsDigit;
  }

  lemma {:induction false} HalvesOfPairs(digits: string, filler: Nibble)
    requires AllDigits(digits)
    ensures Halves(Pairs(digits, filler)) == Values(digits) + Padding(|digits|, filler)
    decreases |digits|
  {
    if |digits| <= 1 {
      FewHalves(digits, filler);
    } else {
      hide *;
      FirstPair(digits, filler);
      FirstHalves(Octet(DigitValue(digits[1]), DigitValue(digits[0])), Pairs(digits[2..], filler));
      FirstValues(digits);
      PaddingOfRest(|digits|, filler);
      HalvesOfPairs(digits[2..], filler);
    }
  }

  lemma ShownValues(digits: string)
    requires AllDigits(digits)
    ensures Shown(Values(digits)) == digits
  {
  }

  /** Decoding undoes the encoding for every kind, every non-empty string of digits of odd or even
      length, and any filler. */
  lemma DecodeUndoesEncode(k: Kind, digits: string, filler: Nibble)
    requires digits != "" && AllDigits(digits)
    ensures Decode(Encode(k, digits, filler)) == Some(OfKind(k, digits))
  {
    hide *;
    EncodedHalves(k, digits, filler);
    DecodeReads(Encode(k, digits, filler), k);
    ShownValues(digits);
  }

  lemma DecodeReads(bytes: seq<Byte>, k: Kind)
    requires bytes != [] && KindOf(TypeBits(bytes[0])) == Some(k) && AllDecimal(DigitHalves(bytes))
    ensures Decode(bytes) == Some(OfKind(k, Shown(DigitHalves(bytes))))
  {
  }

  lemma EncodeParts(k: Kind, digits: string, filler: Nibble)
    requires digits != "" && AllDigits(digits)
    ensures AllDigits(digits[1..])
    ensures Encode(k, digits, filler) == [FirstOctet(k, digits)] + Pairs(digits[1..], filler)
    ensures Values(digits) == [DigitValue(digits[0])] + Values(digits[1..])
  {
    hide Octet, TypeCode, DigitValue, Pairs, IsDigit;
  }

  lemma HalvesOf(first: Byte, body: seq<Byte>)
    ensures DigitHalves([first] + body) ==
            [High(first)] + (if IsOdd(first) || body == [] then Halves(body) else Halves(body)[..2 * |body| - 1])
  {
    hide Halves, IsOdd, High;
    assert ([first] + body)[1..] == body;
  }

  lemma PaddingGoes(values: seq<Nibble>, filler: Nibble)
    ensures |values| % 2 == 0 ==> values + Padding(|values|, filler) == values
    ensures |values| % 2 == 1 ==> (values + Padding(|values|, filler))[..|values|] == values
    ensures |values + Padding(|values|, filler)| == |values| + |values| % 2
  {
  }

  lemma EncodedHalves(k: Kind, digits: string, filler: Nibble)
    requires digits != "" && AllDigits(digits)
    ensures var bytes := Encode(k, digits, filler);
            bytes != [] && KindOf(TypeBits(bytes[0])) == Some(k) && DigitHalves(bytes) == Values(digits)
  {
    hide *;
    EncodeParts(k, digits, filler);
    var body := Pairs(digits[1..], filler);
    TypeOctet(k, digits);
    HalvesOf(FirstOctet(k, digits), body);
    HalvesOfPairs(digits[1..], filler);
    PaddingGoes(Values(digits[1..]), filler);
  }

  lemma TypeOctet(k: Kind, digits: string)
    requires digits != "" && AllDigits(digits)
    ensures var b := FirstOctet(k, digits);
            && TypeBits(b) == TypeCode(k) && (IsOdd(b) <==> |digits| % 2 == 1) && KindOf(TypeBits(b)) == Some(k)
            && High(b) == DigitValue(digits[0])
  {
    OctetBits(DigitValue(digits[0]), |digits| % 2, TypeCode(k));
    hide Octet, Low, High, IsOdd, TypeBits, DigitValue;
  }

  lemma OctetBits(high: Nibble, odd: nat, code: nat)
    requires odd < 2 && code < 8
    ensures var b := Octet(high, 8 * odd + code); TypeBits(b) == code && (IsOdd(b) <==> odd == 1) && High(b) == high
  {
    hide Octet, Low, High;
  }

  /** What decodes to digits is an encoding of them, but for one thing: a single octet whose count
      is marked even. Hence two values decode alike only if they differ in the filler. */
  lemma EncodeUndoesDecodeExactly(bytes: seq<Byte>, k: Kind, digits: string)
    requires Decode(bytes) == Some(OfKind(k, digits))
    ensures digits != "" && AllDigits(digits)
    ensures (exists filler: Nibble :: bytes == Encode(k, digits, filler)) <==> |bytes| > 1 || IsOdd(bytes[0])
  {
    hide *;
    DecodesFrom(bytes, k, digits);
    ShownOf(DigitHalves(bytes), digits);
    if |bytes| > 1 || IsOdd(bytes[0]) {
      var filler := DecodedIsEncoded(bytes, k, digits);
      assert bytes == Encode(k, digits, filler);
    } else if filler: Nibble :| bytes == Encode(k, digits, filler) {
      OneOctetOneDigit(k, digits, filler);
      TypeOctet(k, digits);
    }
  }

  lemma DecodesFrom(bytes: seq<Byte>, k: Kind, digits: string)
    requires Decode(bytes) == Some(OfKind(k, digits))
    ensures bytes != [] && KindOf(TypeBits(bytes[0])) == Some(k)
    ensures AllDecimal(DigitHalves(bytes)) && digits == Shown(DigitHalves(bytes)) && DigitHalves(bytes) != []
  {
    hide Shown, AllDecimal, Hex, Halves;
  }

  lemma OneOctetOneDigit(k: Kind, digits: string, filler: Nibble)
    requires digits != "" && AllDigits(digits) && |Encode(k, digits, filler)| == 1
    ensures |digits| == 1 && Encode(k, digits, filler)[0] == FirstOctet(k, digits)
  {
    hide FirstOctet, DigitValue;
  }

  lemma DecodedIsEncoded(bytes: seq<Byte>, k: Kind, digits: string) returns (filler: Nibble)
    requires bytes != [] && (|bytes| > 1 || IsOdd(bytes[0]))
    requires KindOf(TypeBits(bytes[0])) == Some(k)
    requires digits != "" && AllDigits(digits) && Values(digits) == DigitHalves(bytes)
    ensures bytes == Encode(k, digits, filler)
  {
    hide KindOf, Octet, TypeCode, DigitValue, Low, High, Values, DigitHalves, Pairs, FirstOctet, IsOdd, TypeBits;
    var rest := Halves(bytes[1..]);
    filler := if IsOdd(bytes[0]) then 0 else rest[|rest| - 1];
    TailValues(digits);
    HeadOf(bytes, digits);
    HeadOctet(bytes[0], k, digits);
    HalvesLeft(bytes, digits, filler);
    hide Halves;
    PairsOfHalves(bytes[1..], digits[1..], filler);
    assert bytes == [bytes[0]] + bytes[1..];
  }

  /** The first digit, and the parity of the count. */
  lemma HeadOf(bytes: seq<Byte>, digits: string)
    requires bytes != [] && (|bytes| > 1 || IsOdd(bytes[0]))
    requires digits != "" && AllDigits(digits) && Values(digits) == DigitHalves(bytes)
    ensures DigitValue(digits[0]) == High(bytes[0]) && (IsOdd(bytes[0]) <==> |digits| % 2 == 1)
  {
    hide DigitValue, High, Halves, IsOdd;
    assert |DigitHalves(bytes)| == |digits| && DigitHalves(bytes)[0] == High(bytes[0]);
    assert |digits| == 1 + 2 * (|bytes| - 1) - (if IsOdd(bytes[0]) then 0 else 1);
  }

  /** What is left for the other octets, with the parity that goes with it. */
  lemma HalvesLeft(bytes: seq<Byte>, digits: string, filler: Nibble)
    requires bytes != [] && (|bytes| > 1 || IsOdd(bytes[0]))
    requires digits != "" && AllDigits(digits) && Values(digits) == DigitHalves(bytes)
    requires !IsOdd(bytes[0]) ==> filler == Halves(bytes[1..])[|Halves(bytes[1..])| - 1]
    ensures Halves(bytes[1..]) == Values(digits[1..]) + Padding(|digits[1..]|, filler)
  {
    var rest := Halves(bytes[1..]);
    TailValues(digits);
    hide Halves, Values, IsOdd;
    if IsOdd(bytes[0]) {
      assert Values(digits[1..]) == rest;
      assert |rest| % 2 == 0;
    } else {
      assert Values(digits[1..]) == rest[..|rest| - 1];
      assert (|rest| - 1) % 2 == 1;
    }
  }

  lemma ShownOf(s: seq<Nibble>, digits: string)
    requires AllDecimal(s) && s != [] && digits == Shown(s)
    ensures Values(digits) == s && DigitValue(digits[0]) == s[0] && |digits| == |s|
  {
  }

  lemma TailValues(digits: string)
    requires digits != "" && AllDigits(digits)
    ensures Values(digits[1..]) == Values(digits)[1..]
  {
  }

  lemma HeadOctet(first: Byte, k: Kind, digits: string)
    requires digits != "" && AllDigits(digits) && KindOf(TypeBits(first)) == Some(k)
    requires DigitValue(digits[0]) == High(first) && (IsOdd(first) <==> |digits| % 2 == 1)
    ensures first == FirstOctet(k, digits)
  {
    HalvesMakeOctet(first);
    hide Low, High, DigitValue, Octet;
  }

  lemma FirstOfHalves(bytes: seq<Byte>)
    requires bytes != []
    ensures Halves(bytes) == [Low(bytes[0]), High(bytes[0])] + Halves(bytes[1..])
    ensures bytes == [Octet(High(bytes[0]), Low(bytes[0]))] + bytes[1..]
  {
    HalvesMakeOctet(bytes[0]);
    hide Low, High, Octet;
  }

  lemma FewPairs(bytes: seq<Byte>, digits: string, filler: Nibble)
    requires AllDigits(digits) && |digits| <= 1 && Halves(bytes) == Values(digits) + Padding(|digits|, filler)
    ensures bytes == Pairs(digits, filler)
  {
    if bytes != [] {
      FirstOfHalves(bytes);
      hide Low, High, Octet, DigitValue, Halves;
      var s := Halves(bytes);
      assert s[0] == Values(digits)[0] && s[1] == filler;
    }
  }

  lemma {:induction false} PairsOfHalves(bytes: seq<Byte>, digits: string, filler: Nibble)
    requires AllDigits(digits)
    requires Halves(bytes) == Values(digits) + Padding(|digits|, filler)
    ensures bytes == Pairs(digits, filler)
    decreases |bytes|
  {
    if |digits| <= 1 {
      FewPairs(bytes, digits, filler);
    } else {
      hide *;
      FirstOfHalves(bytes);
      FirstPair(digits, filler);
      FirstValues(digits);
      PaddingOfRest(|digits|, filler);
      var s := Halves(bytes);
      assert s[0] == Low(bytes[0]) == DigitValue(digits[0]) && s[1] == High(bytes[0]) == DigitValue(digits[1]);
      assert s[2..] == Halves(bytes[1..]) == Values(digits[2..]) + Padding(|digits[2..]|, filler);
      PairsOfHalves(bytes[1..], digits[2..], filler);
    }
  }

  // Temporary identities.

  function HexValue(s: string): nat {
    if s == "" then 0
    else
      var c := s[|s| - 1];
      16 * HexValue(s[..|s| - 1]) + (if IsDigit(c) then DigitValue(c)
         else if 'a' <= c <= 'f' then c as int - 'a' as int + 10 else 0)
  }

  /** The four octets of a temporary identity, whatever the network part before them, come out as
      the eight hexadecimal digits of their number. */
  lemma TmsiReadsBack(first: Byte, network: seq<Byte>, tmsi: seq<Byte>, rest: seq<Byte>)
    requires TypeBits(first) == TYPE_GUTI && |network| == 6 && |tmsi| == 4
    ensures var v := BigEndian(tmsi[0], tmsi[1], tmsi[2], tmsi[3]);
            && Decode([first] + network + tmsi + rest) == Some(Tmsi(Hex(v, 8)))
            && HexValue(Hex(v, 8)) == v
  {
    var bytes := [first] + network + tmsi + rest;
    assert bytes[7] == tmsi[0] && bytes[8] == tmsi[1] && bytes[9] == tmsi[2] && bytes[10] == tmsi[3];
    assert Pow16(4) == 0x1_0000 && Pow16(8) == 0x1_0000_0000;
    HexReadsBack(BigEndian(tmsi[0], tmsi[1], tmsi[2], tmsi[3]), 8);
  }

  lemma HexStep(s: string, n: Nibble)
    ensures HexValue(s + [HexDigit(n)]) == 16 * HexValue(s) + n
  {
    assert (s + [HexDigit(n)])[..|s|] == s;
  }

  lemma {:induction false} HexReadsBack(v: nat, width: nat)
    requires v < Pow16(width)
    ensures HexValue(Hex(v, width)) == v
  {
    if width > 0 {
      HexReadsBack(v / 16, width - 1);
      HexStep(Hex(v / 16, width - 1), v % 16);
    }
  }

  // Where an identity sits in a NAS message.

  const PD_EMM: nat := 7
  const IDENTITY_RESPONSE: nat := 0x56
  const ATTACH_REQUEST: nat := 0x41

  datatype Found = Found(identity: Identity, start: nat, end: nat)

  /** Where the value's length octet is, in the messages that carry an identity. */
  function LengthAt(payload: seq<Byte>): Option<nat> {
    if |payload| < 2 || Low(payload[0]) != PD_EMM || High(payload[0]) != 0 then None
    else if payload[1] == IDENTITY_RESPONSE then Some(2)
    else if payload[1] == ATTACH_REQUEST then Some(3)
    else None
  }

  function FromNas(payload: seq<Byte>): (r: Option<Found>)
    ensures r.Some? ==> 3 <= r.value.start < r.value.end <= |payload|
    ensures r.Some? ==> Decode(payload[r.value.start..r.value.end]) == Some(r.value.identity)
    ensures r.Some? ==> payload[r.value.start - 1] == r.value.end - r.value.start
  {
    match LengthAt(payload)
    case None => None
    case Some(at) =>
      if at >= |payload| then None
      else
        var start, end := at + 1, at + 1 + payload[at];
        if end > |payload| then None
        else
          match Decode(payload[start..end])
          case None => None
          case Some(identity) => Some(Found(identity, start, end))
  }

  /** An identity sent in an identity response or an attach request is found and read. */
  lemma SentIdentitiesAreRead(k: Kind, digits: string, filler: Nibble, keys: Byte, rest: seq<Byte>)
    requires digits != "" && AllDigits(digits) && |Encode(k, digits, filler)| < 256
    ensures var value := Encode(k, digits, filler);
            && FromNas([0x07, 0x56, |value|] + value + rest) == Some(Found(OfKind(k, digits), 3, 3 + |value|))
            && FromNas([0x07, 0x41, keys, |value|] + value + rest) == Some(Found(OfKind(k, digits), 4, 4 + |value|))
  {
    var value := Encode(k, digits, filler);
    DecodeUndoesEncode(k, digits, filler);
    hide Encode, Decode;
    var response: seq<Byte> := [0x07, 0x56, |value|] + value + rest;
    var request: seq<Byte> := [0x07, 0x41, keys, |value|] + value + rest;
    assert response[3..3 + |value|] == value;
    assert request[4..4 + |value|] == value;
  }
}
