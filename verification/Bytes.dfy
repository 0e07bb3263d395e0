/** Octets and their halves. */
module Bytes {
  type Byte = n: nat | n < 256
  type Nibble = n: nat | n < 16

  function Low(b: Byte): Nibble { b % 16 }

  function High(b: Byte): Nibble { b / 16 }

  function Octet(high: Nibble, low: Nibble): (b: Byte)
    ensures High(b) == high && Low(b) == low
  {
    16 * high + low
  }

  lemma HalvesMakeOctet(b: Byte)
    ensures Octet(High(b), Low(b)) == b
  {
  }

  /** Two octets, most significant first. */
  function Word(high: Byte, low: Byte): nat { 256 * high + low }
}
