/** Public keys and their hexadecimal text, as the monitor uses them. */
module Cipher {

  newtype byte = x: int | 0 <= x < 256

  /** A public key is a compressed curve point of 33 bytes. */
  const PubKeySize: nat := 33

  type PubKey = s: seq<byte> | |s| == PubKeySize witness seq(33, i => 0 as byte)

  /** The lower-case hexadecimal digit for a value below 16. */
  function HexDigit(n: int): (c: char)
    requires 0 <= n < 16
    ensures n < 10 ==> '0' <= c <= '9'
    ensures 10 <= n ==> 'a' <= c <= 'f'
  {
    if n < 10 then ('0' as int + n) as char else ('a' as int + n - 10) as char
  }

  /** Two digits per byte, high nibble first. */
  function HexByte(b: byte): string
  {
    [HexDigit(b as int / 16), HexDigit(b as int % 16)]
  }

  /** Lower-case hexadecimal text of a byte string (what `PubKey.Hex` returns). */
  function Hex(s: seq<byte>): (h: string)
    ensures |h| == 2 * |s|
  {
    if s == [] then "" else HexByte(s[0]) + Hex(s[1..])
  }

  /** Byte `i` of a key is written as the two characters at `2 * i` and `2 * i + 1`, high nibble first. */
  lemma {:induction false} HexAt(s: seq<byte>, i: nat)
    requires i < |s|
    ensures Hex(s)[2 * i..2 * i + 2] == HexByte(s[i])
    decreases |s|
  {
    assert Hex(s) == HexByte(s[0]) + Hex(s[1..]);
    if i > 0 {
      HexAt(s[1..], i - 1);
      assert Hex(s)[2 * i..2 * i + 2] == Hex(s[1..])[2 * (i - 1)..2 * (i - 1) + 2];
    }
  }

  /** Two bytes with the same two hex digits are equal. */
  lemma HexByteInjective(a: byte, b: byte)
    ensures HexByte(a) == HexByte(b) ==> a == b
  {
    if HexByte(a) == HexByte(b) {
      assert HexDigit(a as int / 16) == HexDigit(b as int / 16);
      assert HexDigit(a as int % 16) == HexDigit(b as int % 16);
    }
  }

  /** Distinct keys have distinct hex texts, so a list of hex texts names keys unambiguously. */
  lemma {:induction false} HexInjective(a: seq<byte>, b: seq<byte>)
    ensures Hex(a) == Hex(b) ==> a == b
  {
    if Hex(a) == Hex(b) && a != [] && b != [] {
      assert Hex(a)[..2] == HexByte(a[0]);
      assert Hex(b)[..2] == HexByte(b[0]);
      HexByteInjective(a[0], b[0]);
      assert Hex(a)[2..] == Hex(a[1..]);
      assert Hex(b)[2..] == Hex(b[1..]);
      HexInjective(a[1..], b[1..]);
      assert a == [a[0]] + a[1..];
      assert b == [b[0]] + b[1..];
    }
  }
}
