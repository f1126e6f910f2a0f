/** Where the fields of every PDU are on the wire, by number, and with which type byte it starts. */
module Layout {
  import opened Base
  import opened Pdu
  import opened Codec

  /** The big-endian numbers at offset i: the first byte is the most significant. */
  function Half(b: seq<byte>, i: nat): int
    requires i + 2 <= |b|
  {
    b[i] as int * 256 + b[i + 1] as int
  }

  function Word(b: seq<byte>, i: nat): int
    requires i + 4 <= |b|
  {
    b[i] as int * 16777216 + b[i + 1] as int * 65536 + b[i + 2] as int * 256 + b[i + 3] as int
  }

  lemma Half16(n: u16)
    ensures |Be16(n)| == 2 && Half(Be16(n), 0) == n
  {
  }

  lemma Word32(n: u32)
    ensures |Be32(n)| == 4 && Word(Be32(n), 0) == n
  {
    var x, y := n / 65536, n % 65536;
    Half16(x);
    Half16(y);
    assert Be32(n)[..2] == Be16(x) && Be32(n)[2..] == Be16(y);
  }

  /** A number found inside a string of bytes. */
  lemma NumberAt(front: seq<byte>, n: u32, m: u16, back: seq<byte>)
    ensures var s := front + Be32(n) + Be16(m) + back;
            |s| == |front| + 6 + |back| && Word(s, |front|) == n && Half(s, |front| + 4) == m
  {
    Word32(n);
    Half16(m);
    hide Be32, Be16;
    var s := front + Be32(n) + Be16(m) + back;
    assert forall i :: 0 <= i < 4 ==> s[|front| + i] == Be32(n)[i];
    assert forall i :: 0 <= i < 2 ==> s[|front| + 4 + i] == Be16(m)[i];
  }

  /** PDUs of bytes only. */
  lemma ByteLayout(p: Pdu)
    requires WellFormed(p)
    ensures p.NetAlive? ==> Serialize(p) == [0]
    ensures p.NetGetNode? ==> Serialize(p) == [1]
    ensures p.NetCloseConnection? ==> Serialize(p) == [5]
    ensures p.NetNewRange? ==> Serialize(p) == [6, p.rangeStart, p.rangeEnd]
    ensures p.NetNewRangeResponse? ==> Serialize(p) == [8]
    ensures p.StunLookup? ==> Serialize(p) == [200]
  {
  }

  /** PDUs with one address. */
  lemma AddressLayout(p: Pdu)
    requires WellFormed(p) && (p.NetGetNodeResponse? || p.NetLeaving?)
    ensures var s := Serialize(p);
            && |s| == 7 && s[0] == (if p.NetGetNodeResponse? then 2 else 7)
            && Word(s, 1) == (if p.NetGetNodeResponse? then p.address else p.newAddress)
            && Half(s, 5) == (if p.NetGetNodeResponse? then p.port else p.newPort)
  {
    hide Be32, Be16;
    if p.NetGetNodeResponse? {
      NumberAt([2], p.address, p.port, []);
      assert Serialize(p) + [] == Serialize(p);
    } else {
      NumberAt([7], p.newAddress, p.newPort, []);
      assert Serialize(p) + [] == Serialize(p);
    }
  }

  lemma StunLayout(p: Pdu)
    requires WellFormed(p) && p.StunResponse?
    ensures var s := Serialize(p); |s| == 5 && s[0] == 201 && Word(s, 1) == p.address
  {
    Word32(p.address);
    hide Be32;
    assert forall i :: 0 <= i < 4 ==> Serialize(p)[1 + i] == Be32(p.address)[i];
  }

  lemma JoinLayout(p: Pdu)
    requires WellFormed(p) && p.NetJoin?
    ensures var s := Serialize(p);
            && |s| == 14 && s[0] == 3 && Word(s, 1) == p.srcAddress && Half(s, 5) == p.srcPort && s[7] == p.maxSpan
            && Word(s, 8) == p.maxAddress && Half(s, 12) == p.maxPort
  {
    var s := Serialize(p);
    var tail := [p.maxSpan] + Be32(p.maxAddress) + Be16(p.maxPort);
    var head := [3] + Be32(p.srcAddress) + Be16(p.srcPort) + [p.maxSpan];
    Word32(p.srcAddress);
    Word32(p.maxAddress);
    Half16(p.srcPort);
    Half16(p.maxPort);
    hide Be32, Be16;
    NumberAt([3], p.srcAddress, p.srcPort, tail);
    NumberAt(head, p.maxAddress, p.maxPort, []);
    assert s == [3] + Be32(p.srcAddress) + Be16(p.srcPort) + tail;
    assert s == head + Be32(p.maxAddress) + Be16(p.maxPort) + [];
  }

  lemma JoinResponseLayout(p: Pdu)
    requires WellFormed(p) && p.NetJoinResponse?
    ensures var s := Serialize(p);
            && |s| == 9 && s[0] == 4 && Word(s, 1) == p.nextAddress && Half(s, 5) == p.nextPort
            && s[7] == p.rangeStart && s[8] == p.rangeEnd
  {
    Word32(p.nextAddress);
    Half16(p.nextPort);
    hide Be32, Be16;
    NumberAt([4], p.nextAddress, p.nextPort, [p.rangeStart, p.rangeEnd]);
  }

  /** The chars of a text, a byte each, at offset i. */
  ghost predicate TextAt(s: seq<byte>, i: nat, text: string) {
    i + |text| <= |s| && forall k :: 0 <= k < |text| ==> s[i + k] == text[k] as int
  }

  lemma TextInside(front: seq<byte>, text: string, back: seq<byte>)
    requires Narrow(text)
    ensures TextAt(front + CharBytes(text) + back, |front|, text)
  {
    var s := front + CharBytes(text) + back;
    forall k | 0 <= k < |text| ensures s[|front| + k] == text[k] as int {
      assert s[|front| + k] == CharBytes(text)[k];
    }
  }

  /** PDUs with a key and no record. */
  lemma KeyLayout(p: Pdu)
    requires WellFormed(p) && (p.ValRemove? || p.ValLookup?)
    ensures var s := Serialize(p);
            && TextAt(s, 1, p.ssn) && |p.ssn| == 12
            && (p.ValRemove? ==> |s| == 13 && s[0] == 101)
            && (p.ValLookup? ==>
                  |s| == 19 && s[0] == 102 && Word(s, 13) == p.senderAddress && Half(s, 17) == p.senderPort)
  {
    hide Be32, Be16;
    var s := Serialize(p);
    if p.ValRemove? {
      TextInside([101], p.ssn, []);
      assert s == [101] + CharBytes(p.ssn) + [];
    } else {
      TextInside([102], p.ssn, Be32(p.senderAddress) + Be16(p.senderPort));
      NumberAt([102] + CharBytes(p.ssn), p.senderAddress, p.senderPort, []);
      assert s == [102] + CharBytes(p.ssn) + (Be32(p.senderAddress) + Be16(p.senderPort));
      assert s == ([102] + CharBytes(p.ssn)) + Be32(p.senderAddress) + Be16(p.senderPort) + [];
    }
  }

  /** The last part of a prefix of s, found in s. */
  lemma PartOf(front: seq<byte>, part: seq<byte>, s: seq<byte>)
    requires front + part <= s
    ensures front <= s && |front| + |part| <= |s| && s[|front|..|front| + |part|] == part
  {
    assert front + part == s[..|front| + |part|];
  }

  lemma SixParts(tag: byte, ssn: seq<byte>, nl: byte, name: seq<byte>, el: byte, email: seq<byte>)
    ensures var s, k := [tag] + ssn + [nl] + name + [el] + email, |ssn|;
            && |s| == 3 + k + |name| + |email| && s[0] == tag && s[1..1 + k] == ssn && s[1 + k] == nl
            && s[2 + k..2 + k + |name|] == name && s[2 + k + |name|] == el && s[3 + k + |name|..] == email
  {
    var p1 := [tag] + ssn;
    var p2 := p1 + [nl];
    var p3 := p2 + name;
    var p4 := p3 + [el];
    var s := p4 + email;
    PartOf(p3, [el], s);
    PartOf(p2, name, s);
    PartOf(p1, [nl], s);
    PartOf([tag], ssn, s);
    assert s[1 + |ssn|..2 + |ssn|][0] == nl;
    assert s[2 + |ssn| + |name|..3 + |ssn| + |name|][0] == el;
  }

  /** Of a longer key the first twelve chars are sent, and of every char the low byte, whatever the length
      fields say. */
  lemma RecordSize(p: Pdu)
    requires IsRecord(p)
    ensures var s, k := Serialize(p), if |p.ssn| <= 12 then |p.ssn| else 12;
            && |s| == 3 + k + |p.name| + |p.email| && s[0] == p.tag && s[1..1 + k] == CharBytes(p.ssn[..k])
            && s[1 + k] == p.nameLength && s[2 + k..2 + k + |p.name|] == CharBytes(p.name)
            && s[2 + k + |p.name|] == p.emailLength && s[3 + k + |p.name|..] == CharBytes(p.email)
  {
    assert Take(p.ssn, 12) == p.ssn[..if |p.ssn| <= 12 then |p.ssn| else 12];
    SixParts(p.tag, CharBytes(Take(p.ssn, 12)), p.nameLength, CharBytes(p.name), p.emailLength, CharBytes(p.email));
  }

  lemma TextPart(s: seq<byte>, i: nat, text: string)
    requires Narrow(text) && i + |text| <= |s| && s[i..i + |text|] == CharBytes(text)
    ensures TextAt(s, i, text)
  {
    forall k | 0 <= k < |text| ensures s[i + k] == text[k] as int {
      assert s[i + k] == s[i..i + |text|][k];
    }
  }

  /** The two records. */
  lemma RecordLayout(p: Pdu)
    requires WellFormed(p) && IsRecord(p)
    ensures var s := Serialize(p);
            && |s| == 15 + |p.name| + |p.email| && |p.ssn| == 12 && s[0] == (if p.ValInsert? then 100 else 103)
            && TextAt(s, 1, p.ssn)
            && s[13] == |p.name| && TextAt(s, 14, p.name)
            && s[14 + |p.name|] == |p.email| && TextAt(s, 15 + |p.name|, p.email)
  {
    hide Serialize, TextAt;
    var s := Serialize(p);
    RecordSize(p);
    assert p.ssn[..12] == p.ssn;
    TextPart(s, 1, p.ssn);
    TextPart(s, 14, p.name);
    TextPart(s, 15 + |p.name|, p.email);
  }
}
