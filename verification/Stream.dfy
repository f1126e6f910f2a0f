/** resources/TestNode/src/socket_wrapper.rs: PDUs cut out of a byte stream that arrives in pieces. */
module Stream {
  import opened Base
  import opened Pdu
  import opened Codec

  // ---- what a buffer of bytes yields ----

  /** The PDUs at the front of the bytes, what is left, and whether parsing it panics. */
  datatype Drained = Drained(pdus: seq<Pdu>, rest: seq<byte>, panic: bool)

  lemma UsedBounds(b: seq<byte>)
    requires Parse(b).Complete?
    ensures 0 < Parse(b).used <= |b|
  {
    Reserialize(b);
  }

  function Drain(b: seq<byte>): Drained
    decreases |b|
  {
    match Parse(b)
    case Incomplete => Drained([], b, false)
    case Panic => Drained([], b, true)
    case Complete(p, used) =>
      UsedBounds(b);
      Then(Drained([p], [], false), Drain(b[used..]))
  }

  /** d, then e from what d left. */
  function Then(d: Drained, e: Drained): Drained {
    Drained(d.pdus + e.pdus, e.rest, e.panic)
  }

  lemma ThenAssociates(d: Drained, e: Drained, f: Drained)
    ensures Then(d, Then(e, f)) == Then(Then(d, e), f)
    ensures d.pdus == [] ==> Then(d, e) == e
  {
    assert d.pdus + (e.pdus + f.pdus) == (d.pdus + e.pdus) + f.pdus;
    assert [] + e.pdus == e.pdus;
  }

  /** Draining early makes no difference, unless it panics: parse what is there, keep the rest, and go
      on when more has come. */
  lemma {:induction false} DrainTwice(a: seq<byte>, b: seq<byte>)
    requires !Drain(a).panic
    ensures Drain(a + b) == Then(Drain(a), Drain(Drain(a).rest + b))
    decreases |a|
  {
    hide Parse;
    if Parse(a).Complete? {
      var p, used := Parse(a).pdu, Parse(a).used;
      UsedBounds(a);
      SelfDelimiting(a, b);
      assert (a + b)[used..] == a[used..] + b;
      DrainTwice(a[used..], b);
      ThenAssociates(Drained([p], [], false), Drain(a[used..]), Drain(Drain(a[used..]).rest + b));
    } else {
      ThenAssociates(Drain(a), Drain(a + b), Drain(a + b));
    }
  }

  // ---- what a receiver should have after n bytes of a stream of PDUs ----

  function SerializeAll(ps: seq<Pdu>): seq<byte> {
    if ps == [] then [] else Serialize(ps[0]) + SerializeAll(ps[1..])
  }

  /** How many PDUs are complete after n bytes. */
  function Whole(ps: seq<Pdu>, n: nat): (k: nat)
    ensures k <= |ps|
  {
    if ps == [] || n < |Serialize(ps[0])| then 0 else 1 + Whole(ps[1..], n - |Serialize(ps[0])|)
  }

  function ReparsedAll(ps: seq<Pdu>): (r: seq<Pdu>)
    ensures |r| == |ps| && forall i :: 0 <= i < |ps| ==> r[i] == Reparsed(ps[i])
  {
    if ps == [] then [] else [Reparsed(ps[0])] + ReparsedAll(ps[1..])
  }

  /** The bytes of the PDU that is still incomplete after n bytes. */
  function Residue(ps: seq<Pdu>, n: nat): seq<byte>
    requires n <= |SerializeAll(ps)|
  {
    if ps == [] || n < |Serialize(ps[0])| then SerializeAll(ps)[..n] else Residue(ps[1..], n - |Serialize(ps[0])|)
  }

  /** After n bytes the stream is cut between the name and the e-mail length of a record. */
  predicate CutBadly(ps: seq<Pdu>, n: nat) {
    ps != [] && if n < |Serialize(ps[0])| then BadCut(ps[0], n) else CutBadly(ps[1..], n - |Serialize(ps[0])|)
  }

  predicate AllWellFormed(ps: seq<Pdu>) {
    forall i :: 0 <= i < |ps| ==> WellFormed(ps[i])
  }

  lemma FrontFirst(ps: seq<Pdu>, k: nat)
    requires 0 < k <= |ps|
    ensures SerializeAll(ps[..k]) == Serialize(ps[0]) + SerializeAll(ps[1..][..k - 1])
  {
    hide Serialize;
    assert ps[..k][0] == ps[0] && ps[..k][1..] == ps[1..][..k - 1];
  }

  lemma JoinedFront(a: seq<byte>, b: seq<byte>, n: nat)
    requires |a| <= n <= |a| + |b|
    ensures (a + b)[..n] == a + b[..n - |a|]
  {
  }

  lemma JoinedTwice(a: seq<byte>, b: seq<byte>, c: seq<byte>)
    ensures (a + b) + c == a + (b + c)
  {
  }

  /** The received bytes are those of the complete PDUs, then the residue, which is less than a PDU. */
  lemma {:induction false} ResidueIs(ps: seq<Pdu>, n: nat)
    requires n <= |SerializeAll(ps)|
    ensures var k := Whole(ps, n);
            && SerializeAll(ps[..k]) + Residue(ps, n) == SerializeAll(ps)[..n]
            && (k < |ps| ==> |Residue(ps, n)| < |Serialize(ps[k])|)
            && (k == |ps| ==> Residue(ps, n) == [])
  {
    hide Serialize;
    if ps != [] && n >= |Serialize(ps[0])| {
      var k := Whole(ps, n);
      ResidueIs(ps[1..], n - |Serialize(ps[0])|);
      FrontFirst(ps, k);
      JoinedFront(Serialize(ps[0]), SerializeAll(ps[1..]), n);
      JoinedTwice(Serialize(ps[0]), SerializeAll(ps[1..][..k - 1]), Residue(ps, n));
    }
  }

  lemma ParseNothing()
    ensures Parse([]) == Incomplete
  {
  }

  /** Draining the first n bytes of a stream of well-formed PDUs yields the complete ones, in order, and
      leaves the residue; it panics exactly at a bad cut. */
  lemma {:induction false} DrainStream(ps: seq<Pdu>, n: nat)
    requires AllWellFormed(ps) && n <= |SerializeAll(ps)|
    ensures Drain(SerializeAll(ps)[..n]) == Drained(ReparsedAll(ps[..Whole(ps, n)]), Residue(ps, n), CutBadly(ps, n))
  {
    hide Parse, Serialize;
    var b := SerializeAll(ps)[..n];
    if ps == [] {
      ParseNothing();
    } else if n < |Serialize(ps[0])| {
      assert b == Serialize(ps[0])[..n];
      PrefixParse(ps[0], n);
    } else {
      var m := |Serialize(ps[0])|;
      var k := Whole(ps, n);
      var rest := SerializeAll(ps[1..])[..n - m];
      assert b == Serialize(ps[0]) + rest;
      RoundTrip(ps[0], rest);
      assert b[m..] == rest;
      DrainStream(ps[1..], n - m);
      assert ps[..k][0] == ps[0] && ps[..k][1..] == ps[1..][..k - 1];
      assert ReparsedAll(ps[..k]) == [Reparsed(ps[0])] + ReparsedAll(ps[1..][..k - 1]);
    }
  }

  // ---- fragments ----

  function Joined(chunks: seq<seq<byte>>): seq<byte> {
    if chunks == [] then [] else Joined(chunks[..|chunks| - 1]) + chunks[|chunks| - 1]
  }

  /** What a receiver has after draining its buffer behind every chunk. */
  function Feed(chunks: seq<seq<byte>>): Drained {
    if chunks == [] then Drained([], [], false)
    else
      var d := Feed(chunks[..|chunks| - 1]);
      if d.panic then d else Then(d, Drain(d.rest + chunks[|chunks| - 1]))
  }

  lemma {:induction false} FeedIsDrain(chunks: seq<seq<byte>>)
    requires !Feed(chunks).panic
    ensures Feed(chunks) == Drain(Joined(chunks))
  {
    if chunks != [] {
      var before := chunks[..|chunks| - 1];
      FeedIsDrain(before);
      DrainTwice(Joined(before), chunks[|chunks| - 1]);
    }
  }

  /** The number of bytes in the first i chunks. */
  function Offset(chunks: seq<seq<byte>>, i: nat): nat
    requires i <= |chunks|
  {
    |Joined(chunks[..i])|
  }

  lemma DrainNothing(ps: seq<Pdu>)
    requires AllWellFormed(ps)
    ensures Drained(ReparsedAll(ps[..Whole(ps, 0)]), Residue(ps, 0), CutBadly(ps, 0)) == Drained([], [], false)
  {
    DrainStream(ps, 0);
    assert SerializeAll(ps)[..0] == [];
  }

  /** Stream reassembly: however the first n bytes of a stream of well-formed PDUs are cut into chunks,
      the receiver panics exactly if some chunk ends at a bad cut; otherwise it has the complete PDUs, in
      the order sent, and as residue the bytes of the incomplete one. */
  lemma {:induction false} Reassembly(ps: seq<Pdu>, chunks: seq<seq<byte>>)
    requires AllWellFormed(ps) && Joined(chunks) <= SerializeAll(ps)
    ensures Feed(chunks).panic <==> exists i :: 0 < i <= |chunks| && CutBadly(ps, Offset(chunks, i))
    ensures var n := |Joined(chunks)|;
            !Feed(chunks).panic ==>
              Feed(chunks) == Drained(ReparsedAll(ps[..Whole(ps, n)]), Residue(ps, n), false)
  {
    hide Parse, Drain, SerializeAll, Residue, Whole, ReparsedAll, CutBadly;
    var n := |Joined(chunks)|;
    if chunks == [] {
      DrainNothing(ps);
    } else {
      var before := chunks[..|chunks| - 1];
      var last := chunks[|chunks| - 1];
      Reassembly(ps, before);
      forall i | 0 < i < |chunks| ensures Offset(chunks, i) == Offset(before, i) {
        assert chunks[..i] == before[..i];
      }
      assert chunks[..|chunks|] == chunks;
      assert Offset(chunks, |chunks|) == n;
      if Feed(before).panic {
        var i :| 0 < i <= |before| && CutBadly(ps, Offset(before, i));
        assert CutBadly(ps, Offset(chunks, i));
      } else {
        FeedIsDrain(before);
        DrainTwice(Joined(before), last);
        assert Joined(chunks) == SerializeAll(ps)[..n];
        DrainStream(ps, n);
      }
    }
  }

  // ---- the wrapper ----

  const BUFFER_SIZE: nat := 25600

  class TcpWrapper {
    var queue: seq<Pdu>              // incoming_queue
    const buffer: array<byte>
    var fill: nat                    // buffer_fill

    ghost predicate Valid()
      reads this
    {
      buffer.Length == BUFFER_SIZE && fill <= BUFFER_SIZE
    }

    constructor ()
      ensures Valid() && queue == [] && fill == 0 && fresh(buffer) && buffer.Length == 25600
    {
      queue := [];
      buffer := new byte[BUFFER_SIZE](i => 0);
      fill := 0;
    }

    method NextPdu() returns (p: Option<Pdu>)
      modifies this`queue
      ensures if old(queue) == [] then p == None && queue == []
              else p == Some(old(queue)[0]) && queue == old(queue)[1..]
    {
      if queue == [] {
        return None;
      }
      p, queue := Some(queue[0]), queue[1..];
    }

    /** The node's loop over a wrapper: every PDU in the queue, in order. */
    method TakeAll() returns (taken: seq<Pdu>)
      modifies this`queue
      ensures taken == old(queue) && queue == []
    {
      taken := [];
      var p := NextPdu();
      while p.Some?
        invariant old(queue) == taken + (if p.Some? then [p.value] else []) + queue && (p.None? ==> queue == [])
        decreases |queue|, p.Some?
      {
        taken := taken + [p.value];
        p := NextPdu();
      }
    }

    /** The bytes that one read(2) put into the buffer behind the fill mark. */
    method Receive(avail: seq<byte>, from: nat, amt: nat)
      requires Valid() && from + amt <= |avail| && fill + amt <= BUFFER_SIZE
      modifies buffer, this`fill
      ensures Valid() && fill == old(fill) + amt
      ensures buffer[..fill] == old(buffer[..fill]) + avail[from..from + amt]
    {
      forall i | 0 <= i < amt {
        buffer[fill + i] := avail[from + i];
      }
      fill := fill + amt;
    }

    /** copy_within: the first `used` bytes are dropped. */
    method DropFront(used: nat)
      requires Valid() && used <= fill
      modifies buffer, this`fill
      ensures Valid() && fill == old(fill) - used && buffer[..fill] == old(buffer[..fill])[used..]
    {
      forall i | 0 <= i < fill - used {
        buffer[i] := buffer[used + i];
      }
      fill := fill - used;
    }

    /** The second loop of try_read. */
    method ParseAll() returns (panicked: bool)
      requires Valid()
      modifies buffer, this`fill, this`queue
      ensures Valid()
      ensures var d := Drain(old(buffer[..fill]));
              queue == old(queue) + d.pdus && buffer[..fill] == d.rest && panicked == d.panic
    {
      hide Parse;
      ghost var all := buffer[..fill];
      ghost var done: seq<Pdu> := [];
      while true
        invariant Valid() && queue == old(queue) + done
        invariant Drain(all) == Then(Drained(done, [], false), Drain(buffer[..fill]))
        decreases fill
      {
        var r := Parse(buffer[..fill]);
        if r.Complete? {
          UsedBounds(buffer[..fill]);
          ghost var rest := buffer[..fill][r.used..];
          ThenAssociates(Drained(done, [], false), Drained([r.pdu], [], false), Drain(rest));
          queue := queue + [r.pdu];
          done := done + [r.pdu];
          DropFront(r.used);
        } else {
          return r.Panic?;
        }
      }
    }

    /** try_read. `avail` is what the socket holds, `eof` whether the peer has closed; read(2) may return
        it in pieces of any size. A full buffer makes the next read return 0, which counts as closed. */
    method TryRead(avail: seq<byte>, eof: bool) returns (closed: bool, taken: nat, panicked: bool)
      requires Valid()
      modifies buffer, this`fill, this`queue
      ensures Valid() && taken <= |avail|
      ensures taken == if old(fill) + |avail| <= BUFFER_SIZE then |avail| else BUFFER_SIZE - old(fill)
      ensures closed <==> old(fill) + taken == BUFFER_SIZE || eof
      ensures var d := Drain(old(buffer[..fill]) + avail[..taken]);
              queue == old(queue) + d.pdus && buffer[..fill] == d.rest && panicked == d.panic
    {
      closed, taken := false, 0;
      while true
        invariant Valid() && taken <= |avail| && fill == old(fill) + taken && queue == old(queue)
        invariant buffer[..fill] == old(buffer[..fill]) + avail[..taken]
        decreases |avail| - taken
      {
        var space := BUFFER_SIZE - fill;
        if space == 0 {
          closed := true;        // Ok(0): the slice to read into is empty
          break;
        }
        if taken == |avail| {
          closed := eof;         // Ok(0) at the end of the stream, else WouldBlock
          break;
        }
        var amt: nat :| 0 < amt <= space && amt <= |avail| - taken;
        Receive(avail, taken, amt);
        assert avail[..taken] + avail[taken..taken + amt] == avail[..taken + amt];
        taken := taken + amt;
      }
      panicked := ParseAll();
    }
  }

  /** One poll of a connection whose socket holds no more than fits. */
  method PollOnce(w: TcpWrapper, avail: seq<byte>) returns (panicked: bool, handled: seq<Pdu>)
    requires w.Valid() && w.queue == [] && w.fill + |avail| <= BUFFER_SIZE
    modifies w, w.buffer
    ensures w.Valid() && w.queue == []
    ensures var d := Drain(old(w.buffer[..w.fill]) + avail);
            handled == d.pdus && w.buffer[..w.fill] == d.rest && panicked == d.panic
  {
    hide Drain;
    var closed, taken;
    closed, taken, panicked := w.TryRead(avail, false);
    assert avail[..taken] == avail;
    handled := w.TakeAll();
  }

  lemma FeedNothing()
    ensures Feed([]) == Drained([], [], false)
  {
  }

  lemma FeedNext(chunks: seq<seq<byte>>, i: nat)
    requires i < |chunks|
    ensures chunks[..i + 1][..i] == chunks[..i] && chunks[..i + 1][i] == chunks[i]
    ensures Feed(chunks[..i + 1]) == if Feed(chunks[..i]).panic then Feed(chunks[..i])
                                     else Then(Feed(chunks[..i]), Drain(Feed(chunks[..i]).rest + chunks[i]))
  {
    assert chunks[..i + 1][..i] == chunks[..i];
  }

  /** No chunk finds too little room behind what the chunks before it left. */
  predicate Fits(chunks: seq<seq<byte>>) {
    forall i {:trigger chunks[i]} :: 0 <= i < |chunks| ==> |Feed(chunks[..i]).rest| + |chunks[i]| < BUFFER_SIZE
  }

  /** A connection, poll by poll: the node takes the PDUs that the stream theorem says, and the wrapper keeps
      the residue. */
  method Poll(w: TcpWrapper, chunks: seq<seq<byte>>, ghost ps: seq<Pdu>)
    returns (panicked: bool, handled: seq<Pdu>)
    requires w.Valid() && w.queue == [] && w.fill == 0
    requires AllWellFormed(ps) && Joined(chunks) <= SerializeAll(ps) && Fits(chunks)
    modifies w, w.buffer
    ensures w.Valid()
    ensures panicked <==> exists i :: 0 < i <= |chunks| && CutBadly(ps, Offset(chunks, i))
    ensures var n := |Joined(chunks)|;
            !panicked ==>
              handled == ReparsedAll(ps[..Whole(ps, n)]) && w.queue == [] && w.buffer[..w.fill] == Residue(ps, n)
  {
    hide Parse, Drain, SerializeAll, Joined, Feed, CutBadly, Residue, Whole, ReparsedAll;
    Reassembly(ps, chunks);
    FeedNothing();
    panicked, handled := false, [];
    for i := 0 to |chunks|
      invariant w.Valid() && !panicked && !Feed(chunks[..i]).panic && w.queue == []
      invariant handled == Feed(chunks[..i]).pdus && w.buffer[..w.fill] == Feed(chunks[..i]).rest
    {
      FeedNext(chunks, i);
      assert |w.buffer[..w.fill]| == w.fill;
      var next;
      panicked, next := PollOnce(w, chunks[i]);
      if panicked {
        PanicStays(chunks, i + 1);
        return;
      }
      handled := handled + next;
    }
    assert chunks[..|chunks|] == chunks;
  }

  lemma {:induction false} PanicStays(chunks: seq<seq<byte>>, i: nat)
    requires i <= |chunks| && Feed(chunks[..i]).panic
    ensures Feed(chunks).panic
  {
    if i == |chunks| {
      assert chunks[..i] == chunks;
    } else {
      var before := chunks[..|chunks| - 1];
      assert before[..i] == chunks[..i];
      PanicStays(before, i);
    }
  }
}
