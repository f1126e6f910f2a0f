/** pdu.rs as it runs: parsing advances a slice cursor, serializing pushes onto a vector. */
module PduReader {
  import opened Base
  import opened Pdu
  import opened Codec

  /** read_be_u8, read_be_u16, read_be_u32: split_at panics when the slice is too short. */
  method ReadBeU8(input: seq<byte>) returns (v: byte, rest: seq<byte>)
    requires |input| >= 1
    ensures v == input[0] && rest == input[1..]
  {
    v, rest := input[0], input[1..];
  }

  method ReadBeU16(input: seq<byte>) returns (v: u16, rest: seq<byte>)
    requires |input| >= 2
    ensures v == FromBe16(input[..2]) && rest == input[2..]
  {
    v, rest := FromBe16(input[..2]), input[2..];
  }

  method ReadBeU32(input: seq<byte>) returns (v: u32, rest: seq<byte>)
    requires |input| >= 4
    ensures v == FromBe32(input[..4]) && rest == input[4..]
  {
    v, rest := FromBe32(input[..4]), input[4..];
  }

  /** ValInsertPdu::try_parse, cursor and all, is the parse function, panic included. */
  method TryParseInsert(buffer: seq<byte>) returns (r: Parsed)
    ensures r == ParseRecord(buffer)
  {
    if |buffer| < 1 + SSN_LENGTH + 1 {
      return Incomplete;
    }
    var pduType, cursor := ReadBeU8(buffer);
    var ssn := ByteChars(cursor[..SSN_LENGTH]);
    cursor := cursor[SSN_LENGTH..];
    var nameLength;
    nameLength, cursor := ReadBeU8(cursor);
    assert cursor == buffer[14..];
    if |cursor| < nameLength {
      return Incomplete;
    }
    var name := ByteChars(cursor[..nameLength]);
    cursor := cursor[nameLength..];
    assert cursor == buffer[14 + nameLength as int..];
    if |cursor| < 1 {
      return Panic;   // read_be_u8 splits an empty slice
    }
    var emailLength;
    emailLength, cursor := ReadBeU8(cursor);
    if |cursor| < emailLength {
      return Incomplete;
    }
    var email := ByteChars(Take(cursor, emailLength));
    assert cursor == buffer[15 + nameLength as int..];
    assert Take(cursor, emailLength) == Field(buffer, 15 + nameLength as int, emailLength);
    assert buffer[1..][..SSN_LENGTH] == Field(buffer, 1, SSN_LENGTH);
    assert buffer[14..][..nameLength] == Field(buffer, 14, nameLength);
    var size: int := 1 + SSN_LENGTH + 1 + nameLength as int + 1 + emailLength as int;
    r := Complete(ValInsert(pduType, ssn, nameLength, name, emailLength, email), size);
  }

  /** NetJoinPdu::try_parse. */
  method TryParseJoin(buffer: seq<byte>) returns (r: Parsed)
    requires buffer != [] && buffer[0] == NET_JOIN_ID
    ensures r == Parse(buffer)
  {
    if |buffer| < FixedSize(NET_JOIN_ID) {
      return Incomplete;
    }
    var pduType, cursor := ReadBeU8(buffer);
    var srcAddress, srcPort, maxSpan, maxAddress, maxPort;
    srcAddress, cursor := ReadBeU32(cursor);
    srcPort, cursor := ReadBeU16(cursor);
    maxSpan, cursor := ReadBeU8(cursor);
    maxAddress, cursor := ReadBeU32(cursor);
    maxPort, cursor := ReadBeU16(cursor);
    assert buffer[1..][..4] == Field(buffer, 1, 4) && buffer[5..][..2] == Field(buffer, 5, 2);
    assert buffer[8..][..4] == Field(buffer, 8, 4) && buffer[12..][..2] == Field(buffer, 12, 2);
    assert buffer[1..][4..] == buffer[5..] && buffer[5..][2..] == buffer[7..];
    assert buffer[7..][1..] == buffer[8..] && buffer[8..][4..] == buffer[12..];
    r := Complete(NetJoin(pduType, srcAddress, srcPort, maxSpan, maxAddress, maxPort), FixedSize(NET_JOIN_ID));
  }

  /** ValLookupPdu::try_parse. */
  method TryParseLookup(buffer: seq<byte>) returns (r: Parsed)
    requires buffer != [] && buffer[0] == VAL_LOOKUP_ID
    ensures r == Parse(buffer)
  {
    if |buffer| < FixedSize(VAL_LOOKUP_ID) {
      return Incomplete;
    }
    var pduType, cursor := ReadBeU8(buffer);
    var ssn := ByteChars(cursor[..SSN_LENGTH]);
    cursor := cursor[SSN_LENGTH..];
    var address, port;
    address, cursor := ReadBeU32(cursor);
    port, cursor := ReadBeU16(cursor);
    assert buffer[1..][..SSN_LENGTH] == Field(buffer, 1, SSN_LENGTH) && buffer[1..][SSN_LENGTH..] == buffer[13..];
    assert buffer[13..][..4] == Field(buffer, 13, 4) && buffer[13..][4..] == buffer[17..];
    assert buffer[17..][..2] == Field(buffer, 17, 2);
    r := Complete(ValLookup(pduType, ssn, address, port), FixedSize(VAL_LOOKUP_ID));
  }

  /** From<ValInsertPdu> for Vec<u8>: what is pushed parses back to a well-formed PDU. */
  method InsertToVec(p: Pdu) returns (v: seq<byte>)
    requires p.ValInsert?
    ensures v == Serialize(p)
    ensures Parse(v) == Complete(p, |v|) <==> WellFormed(p)
  {
    v := [];
    v := v + [p.tag];
    v := v + CharBytes(Take(p.ssn, SSN_LENGTH));
    v := v + [p.nameLength];
    v := v + CharBytes(p.name);
    v := v + [p.emailLength];
    v := v + CharBytes(p.email);
    RoundTripIff(p);
  }
}
