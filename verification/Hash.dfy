/** djb2 over a key, as resources/Hashtable/hashtable.c and node.rs compute it, in 32-bit words, and
    the 8-bit recurrence all other modules use. */
module Hash {
  import opened Base

  const WORD: nat := 0x1_0000_0000

  /** The hash of a byte string by the recurrence h := 33 h + c (mod 256). */
  function Hash8(s: seq<byte>): byte {
    if s == [] then 5381 % 256 else (33 * Hash8(s[..|s| - 1]) + s[|s| - 1]) % 256
  }

  /** The hash of a key. */
  function HashOf(k: Ssn): byte {
    Hash8(k)
  }

  /** The polynomial behind djb2, over the unbounded integers. */
  function Polynomial(s: seq<byte>): nat {
    if s == [] then 5381 else 33 * Polynomial(s[..|s| - 1]) + s[|s| - 1]
  }

  lemma Congruent(x: int, y: int, q: int)
    requires x == y + 256 * q
    ensures x % 256 == y % 256
  {
  }

  /** The 8-bit recurrence is the polynomial modulo 256. */
  lemma {:induction false} RecurrenceIsPolynomial(s: seq<byte>)
    ensures Polynomial(s) % 256 == Hash8(s)
  {
    if s != [] {
      var p, c := Polynomial(s[..|s| - 1]), s[|s| - 1];
      RecurrenceIsPolynomial(s[..|s| - 1]);
      Congruent(33 * p + c, 33 * (p % 256) + c, 33 * (p / 256));
    }
  }

  /** A char promoted to uint32_t: where char is signed, bytes from 128 on are sign-extended. */
  function Promoted(c: byte, signedChar: bool): nat {
    if signedChar && c >= 128 then WORD - 256 + c else c
  }

  /** One round in 32 bits: every operation drops the carry out of the word. */
  function Round(hash: nat, c: nat): nat {
    ((hash * 32 % WORD + hash) % WORD + c) % WORD
  }

  /** A round, seen modulo 256, is a step of the recurrence, whatever the word and the sign bits hold. */
  lemma RoundModulo(hash: nat, c: nat, b: byte)
    requires c % 256 == b
    ensures Round(hash, c) % 256 == (33 * (hash % 256) + b) % 256
  {
    var x := hash * 32;
    var q1 := DropCarry(x);
    var y := x % WORD + hash;
    var q2 := DropCarry(y);
    var z := y % WORD + c;
    var q3 := DropCarry(z);
    Congruent(z % WORD, 33 * (hash % 256) + b, 33 * (hash / 256) + c / 256 - q1 - q2 - q3);
  }

  lemma DropCarry(x: nat) returns (q: int)
    ensures x % WORD == x - 256 * q
  {
    q := x / WORD * (WORD / 256);
  }

  /** digest: on every byte string, and whether char is signed or not, the 8-bit recurrence. */
  method Digest(ssn: seq<byte>, len: nat, signedChar: bool) returns (r: byte)
    requires len <= |ssn|
    ensures r == Hash8(ssn[..len]) && r == Polynomial(ssn[..len]) % 256
  {
    hide Round, Polynomial;
    var hash: nat := 5381;
    for i := 0 to len
      invariant hash % 256 == Hash8(ssn[..i])
    {
      RoundModulo(hash, Promoted(ssn[i], signedChar), ssn[i]);
      assert ssn[..i + 1][..i] == ssn[..i];
      hash := Round(hash, Promoted(ssn[i], signedChar));
    }
    RecurrenceIsPolynomial(ssn[..len]);
    r := hash % 256;
  }

  /** The low bytes of a string's code points. */
  function LowBytes(chars: seq<nat>): (r: seq<byte>)
    ensures |r| == |chars| && forall i :: 0 <= i < |r| ==> r[i] == chars[i] % 256
  {
    seq(|chars|, i requires 0 <= i < |chars| => chars[i] % 256)
  }

  /** Entry::hash_ssn: the same, over the code points of a String; for a key that was parsed from bytes
      these are the bytes. */
  method HashSsn(chars: seq<nat>) returns (r: byte)
    ensures r == Hash8(LowBytes(chars))
    ensures (forall i :: 0 <= i < |chars| ==> chars[i] < 256) ==> r == Hash8(chars)
  {
    var hash: nat := 5381;
    for i := 0 to |chars|
      invariant hash % 256 == Hash8(LowBytes(chars[..i]))
    {
      RoundModulo(hash, chars[i], chars[i] % 256);
      assert chars[..i + 1][..i] == chars[..i];
      assert LowBytes(chars[..i + 1])[..i] == LowBytes(chars[..i]);
      hash := Round(hash, chars[i]);
    }
    assert chars[..|chars|] == chars;
    if forall i :: 0 <= i < |chars| ==> chars[i] < 256 {
      assert LowBytes(chars) == chars;
    }
    r := hash % 256;
  }

  // ---- the hash of a key ----

  /** hash_ssn, and Entry::hash_ssn: all twelve bytes of the key count, none besides. */
  lemma HashIsPolynomial(k: Ssn)
    ensures |k| == 12 && HashOf(k) == Polynomial(k) % 256
    ensures HashOf(k) == Hash8(k[..SSN_LENGTH]) == Hash8(k)
  {
    assert k[..SSN_LENGTH] == k;
    RecurrenceIsPolynomial(k);
  }

  lemma HashNothing()
    ensures Hash8([]) == 5
  {
  }

  lemma OneMoreByte(s: seq<byte>, h: byte, c: byte, h': byte) returns (t: seq<byte>)
    requires Hash8(s) == h && h' == (33 * h + c) % 256
    ensures t == s + [c] && Hash8(t) == h'
  {
    t := s + [c];
    assert t[..|s|] == s;
  }

  /** The key of the repository's own test of the hash: "aaaaabbbbbcc" has the hash 26. */
  lemma KnownHash()
    ensures HashOf([97, 97, 97, 97, 97, 98, 98, 98, 98, 98, 99, 99]) == 26
  {
    hide Hash8;
    HashNothing();
    var s0: seq<byte> := [];
    var s1 := OneMoreByte(s0, 5, 97, 6);
    var s2 := OneMoreByte(s1, 6, 97, 39);
    var s3 := OneMoreByte(s2, 39, 97, 104);
    var s4 := OneMoreByte(s3, 104, 97, 201);
    var s5 := OneMoreByte(s4, 201, 97, 74);
    var s6 := OneMoreByte(s5, 74, 98, 236);
    var s7 := OneMoreByte(s6, 236, 98, 206);
    var s8 := OneMoreByte(s7, 206, 98, 240);
    var s9 := OneMoreByte(s8, 240, 98, 82);
    var s10 := OneMoreByte(s9, 82, 98, 244);
    var s11 := OneMoreByte(s10, 244, 99, 215);
    var s12 := OneMoreByte(s11, 215, 99, 26);
    assert s12 == [97, 97, 97, 97, 97, 98, 98, 98, 98, 98, 99, 99];
  }

  /** The key hash in C: digest over twelve chars, signed or not. */
  method DigestOfKey(k: Ssn) returns (r: byte)
    ensures r == HashOf(k) && r == Polynomial(k) % 256
  {
    HashIsPolynomial(k);
    var signedChar: bool := *;
    r := Digest(k, SSN_LENGTH, signedChar);
  }

  /** The key hash in Rust. */
  method HashSsnOfKey(k: Ssn) returns (r: byte)
    ensures r == HashOf(k) && r == Polynomial(k) % 256
  {
    HashIsPolynomial(k);
    r := HashSsn(k);
  }
}
