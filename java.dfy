/**
 * The fragments of Java's integer and string semantics that the service's
 * wire code depends on, written out over unbounded integers.
 */
module Java {

  /** An octet as it travels over the link, read unsigned. */
  type octet = x: int | 0 <= x < 256

  /** `Math.min`. */
  function Min(a: int, b: int): (r: int)
    ensures r <= a && r <= b && (r == a || r == b)
  {
    if a <= b then a else b
  }

  /** `Math.max`. */
  function Max(a: int, b: int): (r: int)
    ensures r >= a && r >= b && (r == a || r == b)
  {
    if a >= b then a else b
  }

  /** Java's narrowing cast `(byte) x`: keeps the low eight bits, read as two's complement. */
  function ToByte(x: int): (r: int)
    ensures -128 <= r < 128
    ensures -128 <= x < 128 ==> r == x
    ensures 128 <= x < 384 ==> r == x - 256
  {
    (x + 128) % 256 - 128
  }

  /** The cast changes its argument by a multiple of 256 only. */
  lemma ToByteLowBits(x: int)
    ensures (x - ToByte(x)) % 256 == 0
  {
  }

  /** `x >> 4` on a Java int: an arithmetic shift, which rounds toward negative infinity. */
  function ShiftRight4(x: int): (r: int)
    ensures 16 * r <= x < 16 * r + 16
  {
    x / 16
  }

  /** `x & 0xF` on a Java int: the low four bits of its two's-complement representation. */
  function LowNibble(x: int): (r: int)
    ensures 0 <= r < 16
    ensures 0 <= x < 16 ==> r == x
  {
    x % 16
  }

  /** The mask changes its argument by a multiple of 16 only. */
  lemma LowNibbleLowBits(x: int)
    ensures (x - LowNibble(x)) % 16 == 0
  {
  }

  /**
   * For an octet cast to a signed byte, the shift-and-mask idiom still
   * yields the high and low nibbles of the unsigned value.
   */
  lemma SignedNibbles(u: int)
    requires 0 <= u < 256
    ensures LowNibble(ShiftRight4(ToByte(u))) == u / 16
    ensures LowNibble(ToByte(u)) == u % 16
  {
    if u >= 128 {
      assert ToByte(u) == u - 256;
      assert ShiftRight4(u - 256) == u / 16 - 16;
    }
  }

  /**
   * `(char) b` for a received octet: Java widens the signed byte to an int
   * (sign extension) and keeps the low sixteen bits.
   */
  function CharOfByte(b: octet): (c: int)
    ensures b < 128 ==> c == b
    ensures 128 <= b ==> 0xFF80 <= c < 0x1_0000
  {
    if b < 128 then b else 0xFF00 + b
  }

  /** The sign-extended value is the `(char)` cast of the signed byte. */
  lemma CharOfByteCast(b: octet)
    ensures CharOfByte(b) == ToByte(b) % 0x1_0000
  {
  }

  predicate IsAscii(s: string) {
    forall i :: 0 <= i < |s| ==> s[i] as int < 128
  }

  /** One character as `String.getBytes()` encodes it with US-ASCII as the charset. */
  function AsciiByte(c: char): (r: octet)
    ensures r < 128
    ensures c as int < 128 <==> r == c as int
  {
    if c as int < 128 then c as int else '?' as int
  }

  /** `String.getBytes()` with US-ASCII as the charset: one octet per character. */
  function GetBytes(s: string): (r: seq<octet>)
    ensures |r| == |s|
    ensures forall i :: 0 <= i < |s| && s[i] as int < 128 ==> r[i] == s[i] as int
    ensures forall i :: 0 <= i < |s| && s[i] as int >= 128 ==> r[i] == '?' as int
  {
    seq(|s|, i requires 0 <= i < |s| => AsciiByte(s[i]))
  }

  /** Octets read back as ASCII text: an inverse of `GetBytes` defined here. */
  function AsciiText(bytes: seq<octet>): (s: string)
    ensures |s| == |bytes|
  {
    seq(|bytes|, i requires 0 <= i < |bytes| => bytes[i] as char)
  }

  lemma GetBytesAppend(a: string, b: string)
    ensures GetBytes(a + b) == GetBytes(a) + GetBytes(b)
  {
    assert forall i :: 0 <= i < |a + b| ==> GetBytes(a + b)[i] == (GetBytes(a) + GetBytes(b))[i];
  }

  /** Encoding loses nothing on ASCII text: reading the octets back gives the text. */
  lemma AsciiTextGetBytes(s: string)
    requires IsAscii(s)
    ensures AsciiText(GetBytes(s)) == s
  {
    assert forall i :: 0 <= i < |s| ==> AsciiText(GetBytes(s))[i] == s[i];
  }
}
