/** The codec is an inverse pair exactly on the well-formed PDUs, and its records delimit themselves. */
module Codec {
  import opened Base
  import opened Utf8
  import opened Pdu

  /** The type byte a struct should carry. */
  function TagOf(p: Pdu): byte {
    match p
    case NetAlive(_) => NET_ALIVE_ID
    case NetGetNode(_) => NET_GET_NODE_ID
    case NetGetNodeResponse(_, _, _) => NET_GET_NODE_RESPONSE_ID
    case NetJoin(_, _, _, _, _, _) => NET_JOIN_ID
    case NetJoinResponse(_, _, _, _, _) => NET_JOIN_RESPONSE_ID
    case NetCloseConnection(_) => NET_CLOSE_CONNECTION_ID
    case NetNewRange(_, _, _) => NET_NEW_RANGE_ID
    case NetNewRangeResponse(_) => NET_NEW_RANGE_RESPONSE_ID
    case NetLeaving(_, _, _) => NET_LEAVING_ID
    case ValInsert(_, _, _, _, _, _) => VAL_INSERT_ID
    case ValRemove(_, _) => VAL_REMOVE_ID
    case ValLookup(_, _, _, _) => VAL_LOOKUP_ID
    case ValLookupResponse(_, _, _, _, _, _) => VAL_LOOKUP_RESPONSE_ID
    case StunLookup(_) => STUN_LOOKUP_ID
    case StunResponse(_, _) => STUN_RESPONSE_ID
  }

  predicate IsRecord(p: Pdu) {
    p.ValInsert? || p.ValLookupResponse?
  }

  predicate HasSsn(p: Pdu) {
    IsRecord(p) || p.ValRemove? || p.ValLookup?
  }

  /** The right type byte, a key of twelve single-byte chars, and length fields that count the chars. */
  predicate WellFormed(p: Pdu) {
    && p.tag == TagOf(p)
    && (HasSsn(p) ==> |p.ssn| == SSN_LENGTH && Narrow(p.ssn))
    && (IsRecord(p) ==>
          |p.name| == p.nameLength && Narrow(p.name) && |p.email| == p.emailLength && Narrow(p.email))
  }

  function WithTag(p: Pdu, tag: byte): Pdu
    requires p.ValLookupResponse?
  {
    ValLookupResponse(tag, p.ssn, p.nameLength, p.name, p.emailLength, p.email)
  }

  /** What parsing makes of a PDU: the type byte of a lookup response becomes that of a lookup. */
  function Reparsed(p: Pdu): Pdu {
    if p.ValLookupResponse? then WithTag(p, VAL_LOOKUP_ID) else p
  }

  /** Undoes that. */
  function Retagged(p: Pdu): Pdu {
    if p.ValLookupResponse? then WithTag(p, VAL_LOOKUP_RESPONSE_ID) else p
  }

  // ---- parsing what was serialized ----

  /** The bytes of a well-formed record, by position. */
  lemma RecordFields(p: Pdu, b: seq<byte>)
    requires WellFormed(p) && IsRecord(p) && Serialize(p) <= b
    ensures |Serialize(p)| == 15 + |p.name| + |p.email| && |b| >= |Serialize(p)|
    ensures b[0] == p.tag && b[13] == p.nameLength && b[14 + |p.name|] == p.emailLength
    ensures Field(b, 1, SSN_LENGTH) == CharBytes(p.ssn) && Field(b, 14, |p.name|) == CharBytes(p.name)
    ensures Field(b, 15 + |p.name|, |p.email|) == CharBytes(p.email)
  {
    var s := Serialize(p);
    assert s == [p.tag] + CharBytes(p.ssn) + [p.nameLength] + CharBytes(p.name) + [p.emailLength] + CharBytes(p.email);
    assert Field(s, 1, SSN_LENGTH) == CharBytes(p.ssn) && Field(s, 14, |p.name|) == CharBytes(p.name);
    assert Field(s, 15 + |p.name|, |p.email|) == CharBytes(p.email);
    assert Field(b, 1, SSN_LENGTH) == Field(s, 1, SSN_LENGTH) && Field(b, 14, |p.name|) == Field(s, 14, |p.name|);
    assert Field(b, 15 + |p.name|, |p.email|) == Field(s, 15 + |p.name|, |p.email|);
  }

  lemma RecordRoundTrip(p: Pdu, b: seq<byte>)
    requires WellFormed(p) && IsRecord(p) && Serialize(p) <= b
    ensures Parse(b) == Complete(Reparsed(p), |Serialize(p)|)
  {
    RecordFields(p, b);
    CharsInverse(p.ssn, []);
    CharsInverse(p.name, []);
    CharsInverse(p.email, []);
  }

  /** The PDUs that carry a key. */
  lemma KeyRoundTrip(p: Pdu, b: seq<byte>)
    requires WellFormed(p) && HasSsn(p) && !IsRecord(p) && Serialize(p) <= b
    ensures Parse(b) == Complete(p, |Serialize(p)|) && |Serialize(p)| == FixedSize(p.tag)
  {
    hide ParseRecord, ParseResponse, Serialize, FromBe32, FromBe16;
    KeyFields(p, b);
    CharsInverse(p.ssn, []);
  }

  lemma KeyFields(p: Pdu, b: seq<byte>)
    requires WellFormed(p) && HasSsn(p) && !IsRecord(p) && Serialize(p) <= b
    ensures |b| >= |Serialize(p)| == (if p.ValLookup? then 19 else 13) && b[0] == p.tag
    ensures Field(b, 1, SSN_LENGTH) == CharBytes(p.ssn)
    ensures p.ValLookup? ==> FromBe32(Field(b, 13, 4)) == p.senderAddress && FromBe16(Field(b, 17, 2)) == p.senderPort
  {
    hide FromBe32, FromBe16;
    assert Field(b, 1, SSN_LENGTH) == Field(Serialize(p), 1, SSN_LENGTH) == CharBytes(p.ssn);
    if p.ValLookup? {
      AddressFields(b, 13, p.senderAddress, p.senderPort);
    }
  }

  lemma JoinRoundTrip(p: Pdu, b: seq<byte>)
    requires WellFormed(p) && p.NetJoin? && Serialize(p) <= b
    ensures Parse(b) == Complete(p, |Serialize(p)|) && |Serialize(p)| == FixedSize(p.tag)
  {
    hide ParseRecord, ParseResponse;
    AddressFields(b, 1, p.srcAddress, p.srcPort);
    AddressFields(b, 8, p.maxAddress, p.maxPort);
  }

  lemma FixedRoundTrip(p: Pdu, b: seq<byte>)
    requires WellFormed(p) && !IsRecord(p) && Serialize(p) <= b
    ensures Parse(b) == Complete(p, |Serialize(p)|) && |Serialize(p)| == FixedSize(p.tag)
  {
    hide ParseRecord, ParseResponse;
    match p
    case NetGetNodeResponse(_, address, port) => AddressFields(b, 1, address, port);
    case NetLeaving(_, address, port) => AddressFields(b, 1, address, port);
    case NetJoin(_, _, _, _, _, _) => JoinRoundTrip(p, b);
    case NetJoinResponse(_, address, port, _, _) => AddressFields(b, 1, address, port);
    case ValRemove(_, _) => KeyRoundTrip(p, b);
    case ValLookup(_, _, _, _) => KeyRoundTrip(p, b);
    case StunResponse(_, address) =>
      assert Field(b, 1, 4) == Field(Serialize(p), 1, 4) == Be32(address);
      Be32Inverse(address, Field(b, 1, 4));
    case _ =>
  }

  lemma AddressFields(b: seq<byte>, i: nat, address: u32, port: u16)
    requires i + 6 <= |b|
    requires forall k :: 0 <= k < 4 ==> b[i + k] == Be32(address)[k]
    requires forall k :: 0 <= k < 2 ==> b[i + 4 + k] == Be16(port)[k]
    ensures FromBe32(Field(b, i, 4)) == address && FromBe16(Field(b, i + 4, 2)) == port
  {
    assert Field(b, i, 4) == Be32(address) && Field(b, i + 4, 2) == Be16(port);
    Be32Inverse(address, Field(b, i, 4));
    Be16Inverse(port, Field(b, i + 4, 2));
  }

  /** Round trip: the bytes of a well-formed PDU, with anything behind them, parse to that PDU and its length. */
  lemma RoundTrip(p: Pdu, rest: seq<byte>)
    requires WellFormed(p)
    ensures Parse(Serialize(p) + rest) == Complete(Reparsed(p), |Serialize(p)|)
    ensures !p.ValLookupResponse? ==> Reparsed(p) == p
    ensures p.ValLookupResponse? ==>
              Reparsed(p) == ValLookupResponse(102, p.ssn, p.nameLength, p.name, p.emailLength, p.email)
    ensures |Serialize(p)| > 0
  {
    if IsRecord(p) {
      RecordRoundTrip(p, Serialize(p) + rest);
    } else {
      FixedRoundTrip(p, Serialize(p) + rest);
    }
  }

  // ---- serializing what was parsed ----

  lemma ParsedRecord(b: seq<byte>)
    requires ParseRecord(b).Complete? && b[0] == VAL_INSERT_ID
    ensures var r := ParseRecord(b); WellFormed(r.pdu) && Serialize(r.pdu) == b[..r.used]
  {
    var nl: int := b[13];
    var el: int := b[14 + nl];
    RecordText(b, nl, el);
  }

  lemma RecordText(b: seq<byte>, nl: byte, el: byte)
    requires |b| >= 15 + nl + el && b[13] == nl && b[14 + nl] == el
    ensures var ssn, name := ByteChars(Field(b, 1, 12)), ByteChars(Field(b, 14, nl));
            var email := ByteChars(Field(b, 15 + nl, el));
            && Narrow(ssn) && Narrow(name) && Narrow(email)
            && RecordBytes(b[0], ssn, nl, name, el, email) == b[..15 + nl + el]
  {
    var ssn, name, email := Field(b, 1, SSN_LENGTH), Field(b, 14, nl), Field(b, 15 + nl, el);
    CharsInverse([], ssn);
    CharsInverse([], name);
    CharsInverse([], email);
    assert b[..15 + nl + el] == [b[0]] + ssn + [b[13]] + name + [b[14 + nl]] + email;
  }

  lemma ParsedResponse(b: seq<byte>)
    requires ParseResponse(b).Complete? && b[0] == VAL_LOOKUP_RESPONSE_ID
    ensures var r := ParseResponse(b); WellFormed(Retagged(r.pdu)) && Serialize(Retagged(r.pdu)) == b[..r.used]
  {
    var nl: int := b[13];
    var el: int := b[14 + nl];
    RecordText(b, nl, el);
  }

  lemma ParsedKey(b: seq<byte>)
    requires |b| > 0 && (b[0] == VAL_REMOVE_ID || b[0] == VAL_LOOKUP_ID) && ParseFixed(b, FixedSize(b[0])).Complete?
    ensures var r := ParseFixed(b, FixedSize(b[0]));
            WellFormed(r.pdu) && !IsRecord(r.pdu) && Serialize(r.pdu) == b[..r.used] && r.used == FixedSize(b[0])
  {
    CharsInverse([], Field(b, 1, SSN_LENGTH));
    if b[0] == VAL_LOOKUP_ID {
      AddressBytes(b, 13);
    }
  }

  lemma ParsedFixed(b: seq<byte>)
    requires |b| > 0 && FixedSize(b[0]) > 0 && ParseFixed(b, FixedSize(b[0])).Complete?
    ensures var r := ParseFixed(b, FixedSize(b[0]));
            WellFormed(r.pdu) && !IsRecord(r.pdu) && Serialize(r.pdu) == b[..r.used] && 0 < r.used == FixedSize(b[0])
  {
    var t := b[0];
    if t == VAL_REMOVE_ID || t == VAL_LOOKUP_ID {
      ParsedKey(b);
    } else if t == NET_GET_NODE_RESPONSE_ID || t == NET_JOIN_RESPONSE_ID || t == NET_LEAVING_ID {
      AddressBytes(b, 1);
    } else if t == NET_JOIN_ID {
      AddressBytes(b, 1);
      AddressBytes(b, 8);
    } else if t == STUN_RESPONSE_ID {
      Be32Inverse(0, Field(b, 1, 4));
    }
  }

  lemma AddressBytes(b: seq<byte>, i: nat)
    requires i + 6 <= |b|
    ensures Be32(FromBe32(Field(b, i, 4))) == b[i..i + 4] && Be16(FromBe16(Field(b, i + 4, 2))) == b[i + 4..i + 6]
  {
    Be32Inverse(0, Field(b, i, 4));
    Be16Inverse(0, Field(b, i + 4, 2));
  }

  /** Whatever was parsed is well-formed, and serializing it again gives exactly the bytes consumed. */
  lemma Reserialize(b: seq<byte>)
    requires Parse(b).Complete?
    ensures var r := Parse(b);
            && WellFormed(Retagged(r.pdu)) && r.pdu == Reparsed(Retagged(r.pdu))
            && 0 < r.used <= |b| && Serialize(Retagged(r.pdu)) == b[..r.used]
  {
    if b[0] == VAL_INSERT_ID {
      ParsedRecord(b);
    } else if b[0] == VAL_LOOKUP_RESPONSE_ID {
      ParsedResponse(b);
    } else {
      ParsedFixed(b);
    }
  }

  /** The codec gives back exactly the well-formed PDUs. */
  lemma RoundTripIff(p: Pdu)
    ensures Parse(Serialize(p)) == Complete(Reparsed(p), |Serialize(p)|) <==> WellFormed(p)
  {
    var b := Serialize(p);
    if WellFormed(p) {
      RoundTrip(p, []);
      assert b + [] == b;
    } else if Parse(b) == Complete(Reparsed(p), |b|) {
      Reserialize(b);
    }
  }

  /** Self-delimiting: what follows a complete PDU does not change what is parsed. */
  lemma SelfDelimiting(b: seq<byte>, more: seq<byte>)
    requires Parse(b).Complete?
    ensures Parse(b + more) == Parse(b)
  {
    var r := Parse(b);
    Reserialize(b);
    assert b + more == b[..r.used] + (b[r.used..] + more);
    RoundTrip(Retagged(r.pdu), b[r.used..] + more);
  }

  // ---- cut in the middle ----

  /** The one place where a record must not be cut: between the name and the length of the e-mail. */
  predicate BadCut(p: Pdu, k: int) {
    IsRecord(p) && k == 14 + |p.name|
  }

  /** A proper part of a well-formed PDU is recognized as incomplete, unless it ends at the bad cut:
      then the unchecked read of the e-mail length panics. */
  lemma PrefixParse(p: Pdu, k: nat)
    requires WellFormed(p) && k < |Serialize(p)|
    ensures Parse(Serialize(p)[..k]) == if BadCut(p, k) then Panic else Incomplete
  {
    var s := Serialize(p);
    var b := s[..k];
    if k > 0 {
      if IsRecord(p) {
        RecordFields(p, s);
        assert k > 13 ==> b[13] == s[13];
        assert k > 14 + |p.name| ==> b[14 + |p.name|] == s[14 + |p.name|];
      } else {
        FixedRoundTrip(p, s);
      }
      assert b[0] == s[0] == p.tag;
    }
  }

  // ---- every buffer ----

  /** The type bytes of parse_pdu, by number. */
  predicate KnownType(tag: byte) {
    tag <= 8 || 100 <= tag <= 103 || tag == 200 || tag == 201
  }

  /** The proper parts of well-formed PDUs. */
  ghost predicate CutOf(b: seq<byte>, p: Pdu) {
    WellFormed(p) && |b| < |Serialize(p)| && b == Serialize(p)[..|b|]
  }

  lemma TypeDecides(b: seq<byte>, zeros: seq<byte>)
    requires b != [] && |zeros| == 600 && forall i :: 0 <= i < |zeros| ==> zeros[i] == 0
    ensures if KnownType(b[0]) then Parse(b + zeros).Complete? else Parse(b).Panic?
  {
  }

  /** With enough bytes behind it, anything that starts with a known type byte parses. */
  lemma CompletedBy(b: seq<byte>) returns (p: Pdu)
    requires b != [] && KnownType(b[0]) && !Parse(b).Complete?
    ensures CutOf(b, p)
  {
    hide Parse, Serialize, WellFormed;
    var c := b + seq(600, _ => 0);
    TypeDecides(b, seq(600, _ => 0));
    Reserialize(c);
    p := Retagged(Parse(c).pdu);
    if Parse(c).used <= |b| {
      assert b == c[..Parse(c).used] + b[Parse(c).used..];
      RoundTrip(p, b[Parse(c).used..]);
    }
    assert b == c[..|b|];
  }

  /** The verdict on every buffer that does not start with a whole PDU: the parser waits exactly for the rest of
      some well-formed PDU, and panics exactly at a bad cut or at an unknown type byte. */
  lemma VerdictIff(b: seq<byte>)
    ensures Parse(b).Incomplete? <==> exists p :: CutOf(b, p) && !BadCut(p, |b|)
    ensures Parse(b).Panic? <==> (b != [] && !KnownType(b[0])) || exists p :: CutOf(b, p) && BadCut(p, |b|)
  {
    hide Parse, Serialize, WellFormed, BadCut;
    forall p | CutOf(b, p) ensures Parse(b) == if BadCut(p, |b|) then Panic else Incomplete {
      PrefixParse(p, |b|);
    }
    if b == [] {
      AnyCut();
    } else {
      TypeDecides(b, seq(600, _ => 0));
      if KnownType(b[0]) && !Parse(b).Complete? {
        var p := CompletedBy(b);
      }
    }
  }

  lemma AnyCut()
    ensures CutOf([], NetAlive(0)) && !BadCut(NetAlive(0), 0) && Parse([]).Incomplete?
  {
  }

  // ---- the constructors ----

  predicate Ascii(s: string) {
    forall i :: 0 <= i < |s| ==> s[i] as int < 0x80
  }

  /** ValInsertPdu::new. */
  function NewInsert(ssn: string, name: string, email: string): Pdu {
    ValInsert(VAL_INSERT_ID, ssn, Utf8Len(name) % 256, name, Utf8Len(email) % 256, email)
  }

  lemma {:induction false} Utf8Bounds(s: string)
    ensures |s| <= Utf8Len(s) && (Narrow(s) ==> Utf8Len(s) <= 2 * |s|)
    ensures Utf8Len(s) == |s| <==> Ascii(s)
  {
    if s != [] {
      hide Encode;
      var t := s[..|s| - 1];
      Utf8Bounds(t);
      assert forall i :: 0 <= i < |t| ==> t[i] == s[i];
      assert Ascii(s) <==> Ascii(t) && s[|s| - 1] as int < 0x80;
      assert Narrow(s) ==> Narrow(t);
      EncodedSize(s[|s| - 1]);
    }
  }

  /** The constructor truncates the UTF-8 length to a byte: the result is well-formed exactly for keys
      of twelve single-byte chars and for ASCII names and e-mails of at most 255 chars. */
  lemma NewInsertIff(ssn: string, name: string, email: string)
    ensures WellFormed(NewInsert(ssn, name, email)) <==>
            && |ssn| == SSN_LENGTH && Narrow(ssn)
            && Ascii(name) && |name| < 256 && Ascii(email) && |email| < 256
  {
    LengthByteIff(name);
    LengthByteIff(email);
  }

  /** What the constructor is for: a key and texts that fit come out of the parser as they went in. */
  lemma NewInsertParses(ssn: string, name: string, email: string, rest: seq<byte>)
    requires |ssn| == SSN_LENGTH && Narrow(ssn) && Ascii(name) && |name| < 256 && Ascii(email) && |email| < 256
    ensures var r := Parse(Serialize(NewInsert(ssn, name, email)) + rest);
            && r.Complete? && r.used == 15 + |name| + |email|
            && r.pdu.ValInsert? && r.pdu.ssn == ssn && r.pdu.name == name && r.pdu.email == email
            && r.pdu.nameLength == |name| && r.pdu.emailLength == |email|
  {
    hide Utf8Len, Parse, Serialize;
    NewInsertIff(ssn, name, email);
    var p := NewInsert(ssn, name, email);
    RoundTrip(p, rest);
    RecordFields(p, Serialize(p));
    Utf8Bounds(name);
    Utf8Bounds(email);
  }

  lemma LengthByteIff(s: string)
    ensures |s| == Utf8Len(s) % 256 && Narrow(s) <==> Ascii(s) && |s| < 256
  {
    hide Utf8Len;
    Utf8Bounds(s);
  }
}
