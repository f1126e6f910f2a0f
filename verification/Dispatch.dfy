/** The dispatch loop of poll_for_incoming_data and handle_val_insert in src/c_node.c, and the writer
    send_insert_pdu_tcp in src/hash_handling.c: PDUs out of one recv buffer, one after the other. */
module Dispatch {
  import opened Base
  import opened Pdu
  import opened Codec

  // ---- the type bytes, as resources/pdu.h numbers them ----

  const NET_ALIVE: byte := 0
  const NET_GET_NODE: byte := 1
  const NET_GET_NODE_RESPONSE: byte := 2
  const NET_JOIN: byte := 3
  const NET_JOIN_RESPONSE: byte := 4
  const NET_CLOSE_CONNECTION: byte := 5
  const NET_NEW_RANGE: byte := 6
  const NET_LEAVING: byte := 7
  const NET_NEW_RANGE_RESPONSE: byte := 8
  const VAL_INSERT: byte := 100
  const VAL_REMOVE: byte := 101
  const VAL_LOOKUP: byte := 102
  const VAL_LOOKUP_RESPONSE: byte := 103
  const STUN_LOOKUP: byte := 200
  const STUN_RESPONSE: byte := 201

  /** The two implementations number the PDUs alike. */
  lemma TypeBytesCoincide()
    ensures NET_ALIVE == NET_ALIVE_ID && NET_GET_NODE == NET_GET_NODE_ID
    ensures NET_GET_NODE_RESPONSE == NET_GET_NODE_RESPONSE_ID
    ensures NET_JOIN == NET_JOIN_ID && NET_JOIN_RESPONSE == NET_JOIN_RESPONSE_ID
    ensures NET_CLOSE_CONNECTION == NET_CLOSE_CONNECTION_ID
    ensures NET_NEW_RANGE == NET_NEW_RANGE_ID && NET_LEAVING == NET_LEAVING_ID
    ensures NET_NEW_RANGE_RESPONSE == NET_NEW_RANGE_RESPONSE_ID
    ensures VAL_INSERT == VAL_INSERT_ID && VAL_REMOVE == VAL_REMOVE_ID
    ensures VAL_LOOKUP == VAL_LOOKUP_ID && VAL_LOOKUP_RESPONSE == VAL_LOOKUP_RESPONSE_ID
    ensures STUN_LOOKUP == STUN_LOOKUP_ID && STUN_RESPONSE == STUN_RESPONSE_ID
  {
  }

  // ---- the PDUs ----

  /** The seven PDUs the main loop accepts, as the packed structs of resources/pdu.h hold them; addresses
      and ports stay in network order. */
  datatype CPdu =
    | CInsert(ssn: seq<byte>, name: seq<byte>, email: seq<byte>)
    | CRemove(ssn: seq<byte>)
    | CLookup(ssn: seq<byte>, senderAddress: u32, senderPort: u16)
    | CJoin(srcAddress: u32, srcPort: u16, maxSpan: byte, maxAddress: u32, maxPort: u16)
    | CNewRange(rangeStart: byte, rangeEnd: byte)
    | CLeaving(newAddress: u32, newPort: u16)
    | CClose

  /** The lengths the fields have in C: a 12-byte key, one-byte length fields. */
  predicate Sized(p: CPdu) {
    && (p.CInsert? || p.CRemove? || p.CLookup? ==> |p.ssn| == SSN_LENGTH)
    && (p.CInsert? ==> |p.name| < 256 && |p.email| < 256)
  }

  function CBytes(p: CPdu): seq<byte>
    requires Sized(p)
  {
    match p
    case CInsert(ssn, name, email) => [VAL_INSERT] + ssn + [|name|] + name + [|email|] + email
    case CRemove(ssn) => [VAL_REMOVE] + ssn
    case CLookup(ssn, address, port) => [VAL_LOOKUP] + ssn + Be32(address) + Be16(port)
    case CJoin(sa, sp, span, ma, mp) => [NET_JOIN] + Be32(sa) + Be16(sp) + [span] + Be32(ma) + Be16(mp)
    case CNewRange(lo, hi) => [NET_NEW_RANGE, lo, hi]
    case CLeaving(address, port) => [NET_LEAVING] + Be32(address) + Be16(port)
    case CClose => [NET_CLOSE_CONNECTION]
  }

  predicate AllSized(ps: seq<CPdu>) {
    forall i :: 0 <= i < |ps| ==> Sized(ps[i])
  }

  function CBytesAll(ps: seq<CPdu>): seq<byte>
    requires AllSized(ps)
  {
    if ps == [] then [] else CBytes(ps[0]) + CBytesAll(ps[1..])
  }

  // ---- reading one PDU ----

  /** sizeof of the structs; 0 for VAL_INSERT and for types the loop does not know. */
  function StructSize(tag: byte): nat {
    if tag == VAL_REMOVE then 13
    else if tag == VAL_LOOKUP then 19
    else if tag == NET_JOIN then 14
    else if tag == NET_NEW_RANGE then 3
    else if tag == NET_LEAVING then 7
    else if tag == NET_CLOSE_CONNECTION then 1
    else 0
  }

  /** How the loop ends: at the end of the buffer; at a type it does not know; at a VAL_INSERT that does
      not fit, or that ends directly behind the name; or in a struct of which recv did not deliver all bytes. */
  datatype End = AllRead | BadType | BadInsert | CutInsert | Short

  datatype Step = Next(pdu: CPdu, size: nat) | Stop(end: End)

  /** What handle_val_insert makes of the received bytes: the PDU and its size, or -1. */
  function ReadInsert(b: seq<byte>): (r: Step)
    requires b != [] && b[0] == VAL_INSERT
    ensures r.Next? ==> 0 < r.size <= |b| && Sized(r.pdu)
  {
    if |b| < 1 + SSN_LENGTH + 1 then Stop(BadInsert)
    else
      var nl: int := b[13];
      if 14 + nl > |b| then Stop(BadInsert)
      else if 14 + nl == |b| then Stop(CutInsert)
      else
        var el: int := b[14 + nl];
        if 15 + nl + el > |b| then Stop(BadInsert)
        else Next(CInsert(b[1..13], b[14..14 + nl], b[15 + nl..15 + nl + el]), 15 + nl + el)
  }

  /** memcpy into the struct of the given type. */
  function ReadStruct(b: seq<byte>): (r: Step)
    requires b != [] && StructSize(b[0]) > 0
    ensures r.Next? ==> 0 < r.size <= |b| && Sized(r.pdu)
  {
    var n := StructSize(b[0]);
    if |b| < n then Stop(Short)
    else
      Next(
        if b[0] == VAL_REMOVE then CRemove(b[1..13])
        else if b[0] == VAL_LOOKUP then CLookup(b[1..13], FromBe32(b[13..17]), FromBe16(b[17..19]))
        else if b[0] == NET_JOIN then
          CJoin(FromBe32(b[1..5]), FromBe16(b[5..7]), b[7], FromBe32(b[8..12]), FromBe16(b[12..14]))
        else if b[0] == NET_NEW_RANGE then CNewRange(b[1], b[2])
        else if b[0] == NET_LEAVING then CLeaving(FromBe32(b[1..5]), FromBe16(b[5..7]))
        else CClose,
        n)
  }

  function ReadOne(b: seq<byte>): (r: Step)
    requires b != []
    ensures r.Next? ==> 0 < r.size <= |b| && Sized(r.pdu)
  {
    if b[0] == VAL_INSERT then ReadInsert(b)
    else if StructSize(b[0]) > 0 then ReadStruct(b)
    else Stop(BadType)
  }

  function After(ps: seq<CPdu>, rest: (seq<CPdu>, End)): (seq<CPdu>, End) {
    (ps + rest.0, rest.1)
  }

  lemma AfterLaws(ps: seq<CPdu>, qs: seq<CPdu>, rest: (seq<CPdu>, End))
    ensures After([], rest) == rest && After(ps, After(qs, rest)) == After(ps + qs, rest)
  {
    assert [] + rest.0 == rest.0;
    assert ps + (qs + rest.0) == (ps + qs) + rest.0;
  }

  /** Everything the loop hands to handlers, and how it ends. */
  function Split(b: seq<byte>): (r: (seq<CPdu>, End))
    ensures AllSized(r.0)
    decreases |b|
  {
    if b == [] then ([], AllRead)
    else
      match ReadOne(b)
      case Stop(end) => ([], end)
      case Next(p, size) => After([p], Split(b[size..]))
  }

  // ---- whole PDUs ----

  /** The last part of a prefix of b, found in b. */
  lemma LastPart(front: seq<byte>, part: seq<byte>, b: seq<byte>)
    requires front + part <= b
    ensures front <= b && b[|front|..|front| + |part|] == part
  {
    assert front + part == b[..|front| + |part|];
  }

  lemma InsertFields(p: CPdu, b: seq<byte>)
    requires Sized(p) && p.CInsert? && |b| >= 15 + |p.name| + |p.email| && b[0] == VAL_INSERT
    requires b[1..13] == p.ssn && b[13..14] == [|p.name|] && b[14..14 + |p.name|] == p.name
    requires b[14 + |p.name|..15 + |p.name|] == [|p.email|] && b[15 + |p.name|..15 + |p.name| + |p.email|] == p.email
    ensures ReadOne(b) == Next(p, 15 + |p.name| + |p.email|)
  {
    assert b[13..14][0] == b[13] && b[14 + |p.name|..15 + |p.name|][0] == b[14 + |p.name|];
  }

  lemma InsertReads(p: CPdu, rest: seq<byte>)
    requires Sized(p) && p.CInsert?
    ensures ReadOne(CBytes(p) + rest) == Next(p, |CBytes(p)|)
  {
    var b := CBytes(p) + rest;
    var p1 := [VAL_INSERT] + p.ssn;
    var p2 := p1 + [|p.name|];
    var p3 := p2 + p.name;
    var p4 := p3 + [|p.email|];
    hide ReadInsert;
    LastPart(p4, p.email, b);
    LastPart(p3, [|p.email|], b);
    LastPart(p2, p.name, b);
    LastPart(p1, [|p.name|], b);
    LastPart([VAL_INSERT], p.ssn, b);
    InsertFields(p, b);
  }

  lemma JoinReads(p: CPdu, b: seq<byte>)
    requires p.CJoin? && CBytes(p) <= b
    ensures ReadOne(b) == Next(p, 14)
  {
    hide ReadInsert;
    assert b[1..5] == Be32(p.srcAddress) && b[5..7] == Be16(p.srcPort);
    assert b[8..12] == Be32(p.maxAddress) && b[12..14] == Be16(p.maxPort);
    Be32Inverse(p.srcAddress, b[1..5]);
    Be16Inverse(p.srcPort, b[5..7]);
    Be32Inverse(p.maxAddress, b[8..12]);
    Be16Inverse(p.maxPort, b[12..14]);
  }

  lemma LookupReads(p: CPdu, b: seq<byte>)
    requires Sized(p) && p.CLookup? && CBytes(p) <= b
    ensures ReadOne(b) == Next(p, 19)
  {
    hide ReadInsert;
    assert b[1..13] == p.ssn && b[13..17] == Be32(p.senderAddress) && b[17..19] == Be16(p.senderPort);
    Be32Inverse(p.senderAddress, b[13..17]);
    Be16Inverse(p.senderPort, b[17..19]);
  }

  lemma StructReads(p: CPdu, rest: seq<byte>)
    requires Sized(p) && !p.CInsert?
    ensures ReadOne(CBytes(p) + rest) == Next(p, |CBytes(p)|)
  {
    hide ReadInsert;
    var b := CBytes(p) + rest;
    match p
    case CRemove(ssn) => assert b[1..13] == ssn;
    case CLookup(_, _, _) => LookupReads(p, b);
    case CJoin(_, _, _, _, _) => JoinReads(p, b);
    case CLeaving(address, port) =>
      assert b[1..5] == Be32(address) && b[5..7] == Be16(port);
      Be32Inverse(address, b[1..5]);
      Be16Inverse(port, b[5..7]);
    case _ =>
  }

  lemma ReadsBack(p: CPdu, rest: seq<byte>)
    requires Sized(p)
    ensures CBytes(p) + rest != [] && ReadOne(CBytes(p) + rest) == Next(p, |CBytes(p)|)
  {
    if p.CInsert? {
      InsertReads(p, rest);
    } else {
      StructReads(p, rest);
    }
  }

  lemma InsertWrites(b: seq<byte>)
    requires b != [] && b[0] == VAL_INSERT && ReadInsert(b).Next?
    ensures var r := ReadInsert(b); CBytes(r.pdu) == b[..r.size]
  {
    var nl: int := b[13];
    var el: int := b[14 + nl];
    assert b[..15 + nl + el] == [b[0]] + b[1..13] + [b[13]] + b[14..14 + nl] + [b[14 + nl]] + b[15 + nl..15 + nl + el];
  }

  /** What was read is what was there. */
  lemma WritesBack(b: seq<byte>)
    requires b != [] && ReadOne(b).Next?
    ensures var r := ReadOne(b); CBytes(r.pdu) == b[..r.size]
  {
    if b[0] == VAL_INSERT {
      InsertWrites(b);
    } else if b[0] == VAL_LOOKUP {
      Be32Inverse(0, b[13..17]);
      Be16Inverse(0, b[17..19]);
    } else if b[0] == NET_JOIN {
      Be32Inverse(0, b[1..5]);
      Be16Inverse(0, b[5..7]);
      Be32Inverse(0, b[8..12]);
      Be16Inverse(0, b[12..14]);
    } else if b[0] == NET_LEAVING {
      Be32Inverse(0, b[1..5]);
      Be16Inverse(0, b[5..7]);
    }
  }

  lemma StopIsError(b: seq<byte>)
    requires b != []
    ensures ReadOne(b).Stop? ==> ReadOne(b).end != AllRead
  {
  }

  /** On a buffer that concatenates whole PDUs of the seven types the loop dispatches each once, in order. */
  lemma {:induction false} SplitWhole(ps: seq<CPdu>)
    requires AllSized(ps)
    ensures Split(CBytesAll(ps)) == (ps, AllRead)
  {
    if ps != [] {
      hide ReadOne, CBytes;
      ReadsBack(ps[0], CBytesAll(ps[1..]));
      assert CBytesAll(ps)[|CBytes(ps[0])|..] == CBytesAll(ps[1..]);
      SplitWhole(ps[1..]);
      assert ps == [ps[0]] + ps[1..];
    }
  }

  /** And it reads a buffer to its end only if that is such a concatenation. */
  lemma {:induction false} SplitAllRead(b: seq<byte>)
    requires Split(b).1 == AllRead
    ensures b == CBytesAll(Split(b).0)
    decreases |b|
  {
    hide ReadOne, CBytes;
    if b != [] {
      var r := ReadOne(b);
      StopIsError(b);
      WritesBack(b);
      SplitAllRead(b[r.size..]);
      assert b == b[..r.size] + b[r.size..];
      assert Split(b).0[1..] == Split(b[r.size..]).0;
    }
  }

  /** The buffers that the loop reads to their end are the concatenations of whole PDUs. */
  lemma ReadToTheEndIff(b: seq<byte>)
    ensures Split(b).1 == AllRead <==> exists ps :: AllSized(ps) && b == CBytesAll(ps)
  {
    if Split(b).1 == AllRead {
      SplitAllRead(b);
    }
    if ps :| AllSized(ps) && b == CBytesAll(ps) {
      SplitWhole(ps);
    }
  }

  // ---- the loop ----

  const SIZE_MAX: nat := 0xFFFF_FFFF_FFFF_FFFF

  lemma {:induction false} BytesSnoc(ps: seq<CPdu>, p: CPdu)
    requires AllSized(ps) && Sized(p)
    ensures CBytesAll(ps + [p]) == CBytesAll(ps) + CBytes(p)
  {
    hide CBytes;
    if ps == [] {
      assert ps + [p] == [p] && CBytesAll([p][1..]) == [];
    } else {
      assert (ps + [p])[1..] == ps[1..] + [p];
      BytesSnoc(ps[1..], p);
    }
  }

  /** One round of the loop moves over the bytes of one PDU. */
  lemma RoundMoves(b: seq<byte>, ps: seq<CPdu>, offset: nat)
    requires AllSized(ps) && offset < |b| && b[..offset] == CBytesAll(ps) && ReadOne(b[offset..]).Next?
    requires Split(b) == After(ps, Split(b[offset..]))
    ensures var r := ReadOne(b[offset..]);
            && offset + r.size <= |b| && b[..offset + r.size] == CBytesAll(ps + [r.pdu])
            && Split(b) == After(ps + [r.pdu], Split(b[offset + r.size..]))
  {
    hide ReadOne, CBytes;
    var r := ReadOne(b[offset..]);
    WritesBack(b[offset..]);
    BytesSnoc(ps, r.pdu);
    assert b[..offset + r.size] == b[..offset] + b[offset..][..r.size];
    assert b[offset..][r.size..] == b[offset + r.size..];
    AfterLaws(ps, [r.pdu], Split(b[offset + r.size..]));
  }

  /** A struct stops only where some of its bytes, and not all, are received. */
  lemma WhoStops(b: seq<byte>)
    requires b != [] && ReadOne(b).Stop?
    ensures ReadOne(b) == Stop(Short) ==> b[0] != VAL_INSERT && |b| < StructSize(b[0])
    ensures b[0] != VAL_INSERT ==> ReadOne(b) != Stop(CutInsert)
  {
  }

  lemma RoundsStart(b: seq<byte>)
    ensures b[..0] == CBytesAll([]) && b[0..] == b && Split(b) == After([], Split(b))
  {
    AfterLaws([], [], Split(b));
  }

  lemma RoundsEnd(b: seq<byte>, ps: seq<CPdu>)
    requires Split(b) == After(ps, Split(b[|b|..]))
    ensures b[..|b|] == b && Split(b) == (ps, AllRead)
  {
    assert b[|b|..] == [] && ps + [] == ps;
  }

  /** A round that stops says how the loop ends. */
  lemma RoundStops(b: seq<byte>, ps: seq<CPdu>, offset: nat)
    requires AllSized(ps) && offset < |b| && ReadOne(b[offset..]).Stop? && Split(b) == After(ps, Split(b[offset..]))
    ensures var end := ReadOne(b[offset..]).end;
            && Split(b) == (ps, end) && end != AllRead
            && (end == Short ==> b[offset] != VAL_INSERT && |b| - offset < StructSize(b[offset]))
            && (b[offset] != VAL_INSERT ==> end != CutInsert)
  {
    hide ReadOne, StructSize;
    StopIsError(b[offset..]);
    assert ps + [] == ps;
    WhoStops(b[offset..]);
  }

  lemma FieldOf(buffer: seq<byte>, received: nat, i: nat, n: nat)
    requires i + n <= received <= |buffer|
    ensures buffer[..received][i..i + n] == buffer[i..i + n]
  {
  }

  /** handle_val_insert, on a buffer of which the first `received` bytes are new: the cursor moves over the
      fields, and no field is read without a test, except for the length of the e-mail. */
  method HandleValInsert(buffer: seq<byte>, received: nat) returns (r: Step, overrun: bool)
    requires 0 < received <= |buffer| && buffer[0] == VAL_INSERT
    ensures r == ReadInsert(buffer[..received])
    ensures overrun <==> r == Stop(CutInsert) && received == |buffer|
  {
    overrun := false;
    if received < 1 + SSN_LENGTH + 1 {
      return Stop(BadInsert), false;
    }
    var offset := 1;
    var ssn := buffer[offset..offset + SSN_LENGTH];
    offset := offset + SSN_LENGTH;
    var nameLength: int := buffer[offset];
    offset := offset + 1;
    if offset + nameLength > received {
      return Stop(BadInsert), false;
    }
    var name := buffer[offset..offset + nameLength];
    offset := offset + nameLength;
    if offset >= |buffer| {
      return Stop(CutInsert), true;
    }
    var emailLength: int := buffer[offset];
    offset := offset + 1;
    if offset + emailLength > received {
      return Stop(if offset > received then CutInsert else BadInsert), false;
    }
    var email := buffer[offset..offset + emailLength];
    FieldOf(buffer, received, 1, SSN_LENGTH);
    FieldOf(buffer, received, 14, nameLength);
    FieldOf(buffer, received, offset, emailLength);
    r := Next(CInsert(ssn, name, email), 1 + SSN_LENGTH + 1 + nameLength + 1 + emailLength);
  }

  lemma InsertStep(buffer: seq<byte>, received: nat, offset: nat)
    requires offset < received <= |buffer| && buffer[offset] == VAL_INSERT
    ensures ReadInsert(buffer[offset..][..received - offset]) == ReadOne(buffer[..received][offset..])
  {
    hide ReadInsert;
    assert buffer[offset..][..received - offset] == buffer[..received][offset..];
  }

  /** The while loop over a recv buffer of which the first `received` bytes are new. `offset` is a size_t,
      and assigning -1 to it ends the loop because the result is larger than any number of bytes. The loop
      only tests that a PDU starts within the new bytes: of a struct that recv cut short it dispatches what
      is left together with older bytes of the buffer, and reads past the buffer's end if it is too near.
      Of a VAL_INSERT that ends behind the name it reads an e-mail length that is not there, which is past
      the buffer's end if recv filled the buffer. */
  method DispatchLoop(buffer: seq<byte>, received: nat) returns (handled: seq<CPdu>, offset: nat, overrun: bool)
    requires received <= |buffer| < SIZE_MAX
    ensures var (ps, end) := Split(buffer[..received]);
            var at := |CBytesAll(ps)|;
            && at <= received && buffer[..at] == CBytesAll(ps)
            && match end {
                 case AllRead => handled == ps && offset == at == received && !overrun
                 case BadType => handled == ps && offset == 0x1_0000_0000_0000_0000 - 1 && !overrun
                 case BadInsert => handled == ps && offset == SIZE_MAX && !overrun
                 case CutInsert => handled == ps && offset == SIZE_MAX && (overrun <==> received == |buffer|)
                 case Short =>
                   && at < received && offset == at + StructSize(buffer[at]) > received
                   && (overrun <==> offset > |buffer|)
                   && (overrun ==> handled == ps)
                   && (!overrun ==>
                         |handled| == |ps| + 1 && handled[..|ps|] == ps && Sized(handled[|ps|])
                         && CBytes(handled[|ps|]) == buffer[at..offset])
               }
  {
    hide ReadOne, ReadInsert, CBytes, StructSize, Split, After, CBytesAll, Sized;
    var b := buffer[..received];
    offset, handled, overrun := 0, [], false;
    RoundsStart(b);
    while offset < received
      invariant AllSized(handled) && !overrun && offset <= received
      invariant b[..offset] == CBytesAll(handled) && Split(b) == After(handled, Split(b[offset..]))
    {
      var r;
      if buffer[offset] == VAL_INSERT {
        InsertStep(buffer, received, offset);
        r, overrun := HandleValInsert(buffer[offset..], received - offset);
      } else {
        r := ReadOne(b[offset..]);
      }
      match r {
        case Next(p, size) =>
          RoundMoves(b, handled, offset);
          handled := handled + [p];
          offset := offset + size;
        case Stop(end) =>
          RoundStops(b, handled, offset);
          if end != Short {
            offset := SIZE_MAX;
          } else {
            var size := StructSize(buffer[offset]);
            if offset + size > |buffer| {
              overrun := true;
            } else {
              var p := TornStruct(buffer[offset..], size);
              assert buffer[offset..][..size] == buffer[offset..offset + size];
              handled := handled + [p];
            }
            offset := offset + size;
          }
          return;
      }
    }
    RoundsEnd(b, handled);
  }

  /** memcpy into a struct from a buffer that is long enough. */
  function TornStruct(b: seq<byte>, size: nat): (p: CPdu)
    requires b != [] && b[0] != VAL_INSERT && 0 < StructSize(b[0]) == size <= |b|
    ensures Sized(p) && CBytes(p) == b[..size]
  {
    WritesBack(b);
    ReadStruct(b).pdu
  }

  // ---- the writer ----

  /** memcpy of a field into the send buffer. */
  method CopyField(buffer: array<byte>, offset: nat, field: seq<byte>)
    requires offset + |field| <= buffer.Length
    modifies buffer
    ensures buffer[..offset] == old(buffer[..offset]) && buffer[offset..offset + |field|] == field
  {
    forall i | 0 <= i < |field| {
      buffer[offset + i] := field[i];
    }
  }

  /** send_insert_pdu_tcp: the buffer it fills through send_offset is the PDU that handle_val_insert
      reads back, to the same fields and the same size. */
  method SendInsert(ssn: seq<byte>, name: seq<byte>, email: seq<byte>) returns (sendBuffer: array<byte>)
    requires Sized(CInsert(ssn, name, email))
    ensures fresh(sendBuffer) && sendBuffer[..] == CBytes(CInsert(ssn, name, email))
    ensures sendBuffer.Length > 0 && ReadOne(sendBuffer[..]) == Next(CInsert(ssn, name, email), sendBuffer.Length)
  {
    hide ReadOne;
    var pduSize := 1 + SSN_LENGTH + 1 + |name| + 1 + |email|;
    sendBuffer := new byte[pduSize](i => 0);
    var sendOffset := 0;
    sendBuffer[sendOffset] := VAL_INSERT;
    sendOffset := sendOffset + 1;
    CopyField(sendBuffer, sendOffset, ssn);
    assert sendBuffer[..13] == [VAL_INSERT] + ssn;
    sendOffset := sendOffset + SSN_LENGTH;
    sendBuffer[sendOffset] := |name|;
    assert sendBuffer[..14] == [VAL_INSERT] + ssn + [|name|];
    sendOffset := sendOffset + 1;
    CopyField(sendBuffer, sendOffset, name);
    assert sendBuffer[..14 + |name|] == sendBuffer[..14] + sendBuffer[14..14 + |name|];
    sendOffset := sendOffset + |name|;
    sendBuffer[sendOffset] := |email|;
    assert sendBuffer[..15 + |name|] == sendBuffer[..14 + |name|] + [|email|];
    sendOffset := sendOffset + 1;
    CopyField(sendBuffer, sendOffset, email);
    assert sendBuffer[..] == sendBuffer[..15 + |name|] + sendBuffer[15 + |name|..15 + |name| + |email|];
    ReadsBack(CInsert(ssn, name, email), []);
    assert sendBuffer[..] + [] == sendBuffer[..];
  }

  // ---- C and Rust ----

  /** The Rust struct with the same contents. */
  function ToRust(p: CPdu): Pdu
    requires Sized(p)
  {
    match p
    case CInsert(ssn, name, email) =>
      ValInsert(VAL_INSERT_ID, ByteChars(ssn), |name|, ByteChars(name), |email|, ByteChars(email))
    case CRemove(ssn) => ValRemove(VAL_REMOVE_ID, ByteChars(ssn))
    case CLookup(ssn, address, port) => ValLookup(VAL_LOOKUP_ID, ByteChars(ssn), address, port)
    case CJoin(sa, sp, span, ma, mp) => NetJoin(NET_JOIN_ID, sa, sp, span, ma, mp)
    case CNewRange(lo, hi) => NetNewRange(NET_NEW_RANGE_ID, lo, hi)
    case CLeaving(address, port) => NetLeaving(NET_LEAVING_ID, address, port)
    case CClose => NetCloseConnection(NET_CLOSE_CONNECTION_ID)
  }

  lemma SameInsertStops(b: seq<byte>)
    requires b != [] && b[0] == VAL_INSERT
    ensures ReadOne(b).Next? <==> Parse(b).Complete?
    ensures ReadOne(b) == Stop(CutInsert) <==> Parse(b).Panic?
    ensures ReadOne(b) == Stop(BadInsert) <==> Parse(b).Incomplete?
    ensures ReadOne(b) != Stop(BadType)
  {
  }

  lemma SameStructStops(b: seq<byte>)
    requires b != [] && (b[0] == 3 || 5 <= b[0] <= 7 || b[0] == 101 || b[0] == 102)
    ensures ReadOne(b).Next? <==> Parse(b).Complete?
    ensures ReadOne(b) == Stop(Short) <==> Parse(b).Incomplete?
    ensures ReadOne(b).Stop? ==> ReadOne(b).end == Short
  {
    hide FromBe32, FromBe16;
  }

  /** Both implementations take a buffer for whole, cut or bad alike, as far as C reads its type. The bad cut
      between name and e-mail, where Rust panics, is the one where C reads a length that was not received. */
  lemma SameStops(b: seq<byte>)
    requires b != []
    ensures ReadOne(b) == Stop(BadType) <==> !(b[0] == 3 || 5 <= b[0] <= 7 || 100 <= b[0] <= 102)
    ensures ReadOne(b) != Stop(BadType) ==>
              && (ReadOne(b).Next? <==> Parse(b).Complete?)
              && (ReadOne(b) == Stop(CutInsert) <==> Parse(b).Panic?)
              && (ReadOne(b) == Stop(if b[0] == 100 then BadInsert else Short) <==> Parse(b).Incomplete?)
  {
    hide Parse, ReadStruct, ReadInsert;
    if b[0] == 100 {
      SameInsertStops(b);
    } else if b[0] == 3 || 5 <= b[0] <= 7 || b[0] == 101 || b[0] == 102 {
      SameStructStops(b);
    }
  }

  /** Both implementations put the same bytes on the wire, so each reads what the other writes. */
  lemma SameBytes(p: CPdu, rest: seq<byte>)
    requires Sized(p)
    ensures WellFormed(ToRust(p)) && Serialize(ToRust(p)) == CBytes(p)
    ensures Parse(CBytes(p) + rest) == Complete(ToRust(p), |CBytes(p)|)
    ensures CBytes(p) + rest != [] && ReadOne(Serialize(ToRust(p)) + rest) == Next(p, |CBytes(p)|)
  {
    hide ReadStruct;
    if p.CInsert? {
      CharsInverse([], p.ssn);
      CharsInverse([], p.name);
      CharsInverse([], p.email);
    } else if p.CRemove? || p.CLookup? {
      CharsInverse([], p.ssn);
    }
    ReadsBack(p, rest);
    RoundTrip(ToRust(p), rest);
  }
}
