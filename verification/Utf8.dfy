/** UTF-8, as far as the length of a string goes. */
module Utf8 {
  import opened Base

  /** The UTF-8 bytes of a char (section 3 of RFC 3629). */
  function Encode(c: char): (r: seq<byte>)
    ensures 0 < |r| <= 4
  {
    var n := c as int;
    if n < 0x80 then [n]
    else if n < 0x800 then [0xC0 + n / 0x40, 0x80 + n % 0x40]
    else if n < 0x1_0000 then [0xE0 + n / 0x1000, 0x80 + n / 0x40 % 0x40, 0x80 + n % 0x40]
    else [0xF0 + n / 0x4_0000, 0x80 + n / 0x1000 % 0x40, 0x80 + n / 0x40 % 0x40, 0x80 + n % 0x40]
  }

  /** How many bytes the first byte announces. */
  function Announced(b: byte): nat {
    if b < 0x80 then 1 else if b < 0xE0 then 2 else if b < 0xF0 then 3 else 4
  }

  /** The code point, from the payload bits of the bytes. */
  function Decode(b: seq<byte>): int
    requires 0 < |b| <= 4
  {
    if |b| == 1 then b[0]
    else if |b| == 2 then (b[0] as int - 0xC0) * 0x40 + (b[1] as int - 0x80)
    else if |b| == 3 then ((b[0] as int - 0xE0) * 0x40 + (b[1] as int - 0x80)) * 0x40 + (b[2] as int - 0x80)
    else (((b[0] as int - 0xF0) * 0x40 + (b[1] as int - 0x80)) * 0x40 + (b[2] as int - 0x80)) * 0x40
         + (b[3] as int - 0x80)
  }

  /** The bytes tell the char, and the first of them how many there are. */
  lemma EncodeInverse(c: char)
    ensures Decode(Encode(c)) == c as int && Announced(Encode(c)[0]) == |Encode(c)|
  {
    Digits(c as int);
    Digits(c as int / 0x40);
    Digits(c as int / 0x1000);
  }

  lemma Digits(n: nat)
    ensures n == n / 0x40 * 0x40 + n % 0x40
    ensures n / 0x40 / 0x40 == n / 0x1000 && n / 0x1000 / 0x40 == n / 0x4_0000
  {
  }

  lemma EncodedSize(c: char)
    ensures |Encode(c)| == 1 <==> c as int < 0x80
    ensures c as int < 256 ==> |Encode(c)| <= 2
  {
  }

  /** String::len: the number of UTF-8 bytes. */
  function Utf8Len(s: string): nat {
    if s == [] then 0 else Utf8Len(s[..|s| - 1]) + |Encode(s[|s| - 1])|
  }
}
