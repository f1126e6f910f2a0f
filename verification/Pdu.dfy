/** resources/TestNode/src/pdu.rs and the parse functions of socket_wrapper.rs: the PDUs, their bytes,
    and what a parse of arbitrary bytes gives. */
module Pdu {
  import opened Base

  type u16 = n: int | 0 <= n < 0x1_0000
  type u32 = n: int | 0 <= n < 0x1_0000_0000

  const NET_ALIVE_ID: byte := 0
  const NET_GET_NODE_ID: byte := 1
  const NET_GET_NODE_RESPONSE_ID: byte := 2
  const NET_JOIN_ID: byte := 3
  const NET_JOIN_RESPONSE_ID: byte := 4
  const NET_CLOSE_CONNECTION_ID: byte := 5
  const NET_NEW_RANGE_ID: byte := 6
  const NET_LEAVING_ID: byte := 7
  const NET_NEW_RANGE_RESPONSE_ID: byte := 8
  const VAL_INSERT_ID: byte := 100
  const VAL_REMOVE_ID: byte := 101
  const VAL_LOOKUP_ID: byte := 102
  const VAL_LOOKUP_RESPONSE_ID: byte := 103
  const STUN_LOOKUP_ID: byte := 200
  const STUN_RESPONSE_ID: byte := 201

  /** The fifteen PDU structs; each carries its type byte as a public field. */
  datatype Pdu =
    | NetAlive(tag: byte)
    | NetGetNode(tag: byte)
    | NetGetNodeResponse(tag: byte, address: u32, port: u16)
    | NetJoin(tag: byte, srcAddress: u32, srcPort: u16, maxSpan: byte, maxAddress: u32, maxPort: u16)
    | NetJoinResponse(tag: byte, nextAddress: u32, nextPort: u16, rangeStart: byte, rangeEnd: byte)
    | NetCloseConnection(tag: byte)
    | NetNewRange(tag: byte, rangeStart: byte, rangeEnd: byte)
    | NetNewRangeResponse(tag: byte)
    | NetLeaving(tag: byte, newAddress: u32, newPort: u16)
    | ValInsert(tag: byte, ssn: string, nameLength: byte, name: string, emailLength: byte, email: string)
    | ValRemove(tag: byte, ssn: string)
    | ValLookup(tag: byte, ssn: string, senderAddress: u32, senderPort: u16)
    | ValLookupResponse(tag: byte, ssn: string, nameLength: byte, name: string, emailLength: byte, email: string)
    | StunLookup(tag: byte)
    | StunResponse(tag: byte, address: u32)

  // ---- numbers and strings as bytes ----

  function Be16(n: u16): seq<byte> {
    [n / 0x100, n % 0x100]
  }

  function Be32(n: u32): seq<byte> {
    Be16(n / 0x1_0000) + Be16(n % 0x1_0000)
  }

  function FromBe16(b: seq<byte>): u16
    requires |b| == 2
  {
    b[0] as int * 0x100 + b[1]
  }

  function FromBe32(b: seq<byte>): u32
    requires |b| == 4
  {
    FromBe16(b[..2]) as int * 0x1_0000 + FromBe16(b[2..])
  }

  lemma Be16Inverse(n: u16, b: seq<byte>)
    requires |b| == 2
    ensures FromBe16(Be16(n)) == n && Be16(FromBe16(b)) == b
  {
  }

  lemma Be32Inverse(n: u32, b: seq<byte>)
    requires |b| == 4
    ensures FromBe32(Be32(n)) == n && Be32(FromBe32(b)) == b
  {
    Be16Inverse(n / 0x1_0000, b[..2]);
    Be16Inverse(n % 0x1_0000, b[2..]);
    assert Be32(n)[..2] == Be16(n / 0x1_0000) && Be32(n)[2..] == Be16(n % 0x1_0000);
    assert b == b[..2] + b[2..];
  }

  /** `char as u8`: the low byte of the code point. */
  function CharBytes(s: string): (r: seq<byte>)
    ensures |r| == |s| && forall i :: 0 <= i < |s| ==> r[i] == s[i] as int % 256
  {
    seq(|s|, i requires 0 <= i < |s| => s[i] as int % 256)
  }

  /** `u8 as char`. */
  function ByteChars(b: seq<byte>): (r: string)
    ensures |r| == |b| && forall i :: 0 <= i < |b| ==> r[i] as int == b[i]
  {
    seq(|b|, i requires 0 <= i < |b| => b[i] as char)
  }

  /** Every char fits a byte. */
  predicate Narrow(s: string) {
    forall i :: 0 <= i < |s| ==> s[i] as int < 256
  }

  lemma CharsInverse(s: string, b: seq<byte>)
    ensures ByteChars(CharBytes(s)) == s <==> Narrow(s)
    ensures CharBytes(ByteChars(b)) == b && Narrow(ByteChars(b))
  {
    if Narrow(s) {
      forall i | 0 <= i < |s| ensures ByteChars(CharBytes(s))[i] == s[i] {}
    } else {
      var i :| 0 <= i < |s| && s[i] as int >= 256;
      assert ByteChars(CharBytes(s))[i] as int < 256;
    }
  }

  function Take<T>(s: seq<T>, n: nat): seq<T> {
    if |s| <= n then s else s[..n]
  }

  // ---- From<..> for Vec<u8> ----

  function SsnBytes(ssn: string): seq<byte> {
    CharBytes(Take(ssn, SSN_LENGTH))
  }

  function RecordBytes(tag: byte, ssn: string, nameLength: byte, name: string,
                       emailLength: byte, email: string): seq<byte> {
    [tag] + SsnBytes(ssn) + [nameLength] + CharBytes(name) + [emailLength] + CharBytes(email)
  }

  function Serialize(p: Pdu): seq<byte> {
    match p
    case NetGetNodeResponse(t, address, port) => [t] + Be32(address) + Be16(port)
    case NetJoin(t, srcAddress, srcPort, maxSpan, maxAddress, maxPort) =>
      [t] + Be32(srcAddress) + Be16(srcPort) + [maxSpan] + Be32(maxAddress) + Be16(maxPort)
    case NetJoinResponse(t, nextAddress, nextPort, rangeStart, rangeEnd) =>
      [t] + Be32(nextAddress) + Be16(nextPort) + [rangeStart, rangeEnd]
    case NetNewRange(t, rangeStart, rangeEnd) => [t, rangeStart, rangeEnd]
    case NetLeaving(t, newAddress, newPort) => [t] + Be32(newAddress) + Be16(newPort)
    case ValInsert(t, ssn, nl, name, el, email) => RecordBytes(t, ssn, nl, name, el, email)
    case ValRemove(t, ssn) => [t] + SsnBytes(ssn)
    case ValLookup(t, ssn, senderAddress, senderPort) => [t] + SsnBytes(ssn) + Be32(senderAddress) + Be16(senderPort)
    case ValLookupResponse(t, ssn, nl, name, el, email) => RecordBytes(t, ssn, nl, name, el, email)
    case StunResponse(t, address) => [t] + Be32(address)
    case _ => [p.tag]
  }

  // ---- parse_pdu ----

  /** None; Some((pdu, used)); or a panic: an invalid type byte, or the unchecked read of the e-mail length. */
  datatype Parsed = Incomplete | Complete(pdu: Pdu, used: nat) | Panic

  /** The field of n bytes at offset i. */
  function Field(b: seq<byte>, i: nat, n: nat): (r: seq<byte>)
    requires i + n <= |b|
    ensures |r| == n
  {
    b[i..i + n]
  }

  /** ValInsertPdu::try_parse. */
  function ParseRecord(b: seq<byte>): (r: Parsed)
    ensures r.Complete? ==> r.pdu.ValInsert? && r.used <= |b|
  {
    if |b| < 1 + SSN_LENGTH + 1 then Incomplete
    else
      var nl: int := b[13];
      if |b| < 14 + nl then Incomplete
      else if |b| == 14 + nl then Panic
      else
        var el: int := b[14 + nl];
        if |b| < 15 + nl + el then Incomplete
        else Complete(ValInsert(b[0], ByteChars(Field(b, 1, SSN_LENGTH)), nl, ByteChars(Field(b, 14, nl)),
                                el, ByteChars(Field(b, 15 + nl, el))), 15 + nl + el)
  }

  /** ValLookupResponsePdu::try_parse: the record parser, with the type byte of a lookup put in. */
  function ParseResponse(b: seq<byte>): Parsed {
    var r := ParseRecord(b);
    if r.Complete? then
      Complete(ValLookupResponse(VAL_LOOKUP_ID, r.pdu.ssn, r.pdu.nameLength, r.pdu.name,
                                 r.pdu.emailLength, r.pdu.email), r.used)
    else r
  }

  /** A fixed-size PDU, once all its bytes are there. */
  function ParseFixed(b: seq<byte>, size: nat): Parsed
    requires |b| > 0 && size == FixedSize(b[0]) > 0
  {
    if |b| < size then Incomplete
    else
      var t := b[0];
      Complete(
        if t == NET_ALIVE_ID then NetAlive(t)
        else if t == NET_GET_NODE_ID then NetGetNode(t)
        else if t == NET_GET_NODE_RESPONSE_ID then
          NetGetNodeResponse(t, FromBe32(Field(b, 1, 4)), FromBe16(Field(b, 5, 2)))
        else if t == NET_JOIN_ID then
          NetJoin(t, FromBe32(Field(b, 1, 4)), FromBe16(Field(b, 5, 2)), b[7],
                  FromBe32(Field(b, 8, 4)), FromBe16(Field(b, 12, 2)))
        else if t == NET_JOIN_RESPONSE_ID then
          NetJoinResponse(t, FromBe32(Field(b, 1, 4)), FromBe16(Field(b, 5, 2)), b[7], b[8])
        else if t == NET_CLOSE_CONNECTION_ID then NetCloseConnection(t)
        else if t == NET_NEW_RANGE_ID then NetNewRange(t, b[1], b[2])
        else if t == NET_LEAVING_ID then NetLeaving(t, FromBe32(Field(b, 1, 4)), FromBe16(Field(b, 5, 2)))
        else if t == NET_NEW_RANGE_RESPONSE_ID then NetNewRangeResponse(t)
        else if t == VAL_REMOVE_ID then ValRemove(t, ByteChars(Field(b, 1, SSN_LENGTH)))
        else if t == VAL_LOOKUP_ID then
          ValLookup(t, ByteChars(Field(b, 1, SSN_LENGTH)), FromBe32(Field(b, 13, 4)), FromBe16(Field(b, 17, 2)))
        else if t == STUN_LOOKUP_ID then StunLookup(t)
        else StunResponse(t, FromBe32(Field(b, 1, 4))),
        size)
  }

  /** The size constants; 0 for records and for type bytes that do not exist. */
  function FixedSize(tag: byte): nat {
    if tag == NET_GET_NODE_RESPONSE_ID || tag == NET_LEAVING_ID then 1 + 4 + 2
    else if tag == NET_JOIN_ID then 1 + 4 + 2 + 1 + 4 + 2
    else if tag == NET_JOIN_RESPONSE_ID then 1 + 4 + 2 + 1 + 1
    else if tag == NET_NEW_RANGE_ID then 1 + 1 + 1
    else if tag <= NET_NEW_RANGE_RESPONSE_ID || tag == STUN_LOOKUP_ID then 1
    else if tag == VAL_REMOVE_ID then 1 + SSN_LENGTH
    else if tag == VAL_LOOKUP_ID then 1 + SSN_LENGTH + 4 + 2
    else if tag == STUN_RESPONSE_ID then 1 + 4
    else 0
  }

  function Parse(b: seq<byte>): Parsed {
    if b == [] then Incomplete
    else if b[0] == VAL_INSERT_ID then ParseRecord(b)
    else if b[0] == VAL_LOOKUP_RESPONSE_ID then ParseResponse(b)
    else if FixedSize(b[0]) > 0 then ParseFixed(b, FixedSize(b[0]))
    else Panic
  }
}
