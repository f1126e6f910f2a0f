/** Where the data is: stored at a node or carried by a VAL_INSERT. No step invents a copy, and only
    handling a VAL_REMOVE can make a key disappear. */
module NetData {
  import opened Base
  import opened Hash
  import opened Ranges
  import opened StoreSpec
  import opened NodeSpec
  import opened Network
  import opened Ring
  import opened NetInv
  import opened NetSteps
  import opened NetJoin
  import opened NetCore

  ghost predicate OnDown(s: Net, m: Msg) {
    exists x: Id, y: Id {:trigger Down(s, x, y)} :: m in Down(s, x, y)
  }

  ghost predicate OnUp(s: Net, m: Msg) {
    exists x: Id, y: Id {:trigger Up(s, x, y)} :: m in Up(s, x, y)
  }

  ghost predicate NoUp(s: Net) {
    forall x: Id, y: Id {:trigger Up(s, x, y)} :: Up(s, x, y) == []
  }

  ghost predicate OnUdp(s: Net, m: Msg) {
    exists p :: p in s.udp && p.m == m
  }

  ghost predicate Carried(s: Net, m: Msg) {
    OnDown(s, m) || OnUp(s, m) || OnUdp(s, m)
  }

  ghost predicate HoldsAt(n: Node, k: Ssn, v: Value) {
    k in n.store.vals && n.store.vals[k] == v
  }

  ghost predicate Stored(s: Net, k: Ssn, v: Value) {
    exists b :: b in s.nodes && HoldsAt(s.nodes[b], k, v)
  }

  /** (k, v) is stored somewhere or on its way. */
  ghost predicate Copy(s: Net, k: Ssn, v: Value) {
    Stored(s, k, v) || Carried(s, Insert(k, v))
  }

  ghost predicate Present(s: Net, k: Ssn) {
    exists v :: Copy(s, k, v)
  }

  /** In the table of a node, or in a VAL_INSERT on a link or in a UDP packet. */
  lemma PresentIff(s: Net, k: Ssn)
    ensures Present(s, k) <==>
            || (exists b :: b in s.nodes && k in s.nodes[b].store.vals)
            || (exists x: Id, y: Id, v: Value :: Insert(k, v) in Down(s, x, y) || Insert(k, v) in Up(s, x, y))
            || (exists b: Id, v: Value :: Packet(b, Insert(k, v)) in s.udp)
  {
    forall b | b in s.nodes && k in s.nodes[b].store.vals ensures Present(s, k) {
      assert HoldsAt(s.nodes[b], k, s.nodes[b].store.vals[k]);
      assert Copy(s, k, s.nodes[b].store.vals[k]);
    }
    forall x: Id, y: Id, v: Value | Insert(k, v) in Down(s, x, y) || Insert(k, v) in Up(s, x, y) ensures Present(s, k) {
      assert Carried(s, Insert(k, v)) && Copy(s, k, v);
    }
    forall b: Id, v: Value | Packet(b, Insert(k, v)) in s.udp ensures Present(s, k) {
      assert Carried(s, Insert(k, v)) && Copy(s, k, v);
    }
  }

  // ---- taking a message in hand ----

  lemma PopUdpCarried(s: Net, p: Packet, m: Msg)
    requires p in s.udp
    ensures var rest := s.(udp := s.udp - multiset{p});
            && (Carried(rest, m) ==> Carried(s, m))
            && (Carried(s, m) ==> Carried(rest, m) || p.m == m)
            && (forall k, v :: Stored(rest, k, v) <==> Stored(s, k, v))
  {
    var rest := s.(udp := s.udp - multiset{p});
    forall x: Id, y: Id ensures Down(rest, x, y) == Down(s, x, y) && Up(rest, x, y) == Up(s, x, y) {}
    if OnDown(rest, m) {
      var x: Id, y: Id :| m in Down(rest, x, y);
      assert m in Down(s, x, y);
    }
    if OnDown(s, m) {
      var x: Id, y: Id :| m in Down(s, x, y);
      assert m in Down(rest, x, y);
    }
    if OnUp(rest, m) {
      var x: Id, y: Id :| m in Up(rest, x, y);
      assert m in Up(s, x, y);
    }
    if OnUp(s, m) {
      var x: Id, y: Id :| m in Up(s, x, y);
      assert m in Up(rest, x, y);
    }
    if OnUdp(rest, m) {
      var q :| q in rest.udp && q.m == m;
      assert q in s.udp;
    }
    if OnUdp(s, m) && p.m != m {
      var q :| q in s.udp && q.m == m;
      assert q in rest.udp;
    }
  }

  /** Streams of s' come from streams of s, but for one that changed. */
  lemma DownChanged(s: Net, s': Net, a: Id, b: Id, m: Msg)
    requires forall x: Id, y: Id {:trigger Down(s', x, y)} :: (x, y) != (a, b) ==> Down(s', x, y) == Down(s, x, y)
    requires s'.up == s.up && s'.udp == s.udp
    ensures Carried(s', m) ==> Carried(s, m) || m in Down(s', a, b)
    ensures Carried(s, m) ==> Carried(s', m) || m in Down(s, a, b)
    ensures m in Down(s', a, b) ==> Carried(s', m)
  {
    forall x: Id, y: Id ensures Up(s', x, y) == Up(s, x, y) {}
    if OnDown(s', m) {
      var x: Id, y: Id :| m in Down(s', x, y);
      assert (x, y) != (a, b) ==> m in Down(s, x, y);
    }
    if OnDown(s, m) {
      var x: Id, y: Id :| m in Down(s, x, y);
      assert (x, y) != (a, b) ==> m in Down(s', x, y);
    }
    if OnUp(s', m) {
      var x: Id, y: Id :| m in Up(s', x, y);
      assert m in Up(s, x, y);
    }
    if OnUp(s, m) {
      var x: Id, y: Id :| m in Up(s, x, y);
      assert m in Up(s', x, y);
    }
    assert OnUdp(s', m) == OnUdp(s, m);
  }

  lemma PopDownCarried(s: Net, a: Id, b: Id, m: Msg)
    requires Down(s, a, b) != []
    ensures Carried(PopDown(s, a, b), m) ==> Carried(s, m)
    ensures Carried(s, m) ==> Carried(PopDown(s, a, b), m) || m == Down(s, a, b)[0]
    ensures forall k, v :: Stored(PopDown(s, a, b), k, v) <==> Stored(s, k, v)
  {
    var ch := Down(s, a, b);
    var s' := PopDown(s, a, b);
    assert Down(s', a, b) == ch[1..];
    DownChanged(s, s', a, b, m);
    DownChanged(s', s, a, b, m);
    assert ch == [ch[0]] + ch[1..];
  }

  lemma PushDownCarried(s: Net, a: Id, b: Id, m': Msg, m: Msg)
    ensures Carried(PushDown(s, a, b, [m']), m) <==> Carried(s, m) || m == m'
    ensures forall k, v :: Stored(PushDown(s, a, b, [m']), k, v) <==> Stored(s, k, v)
  {
    var s' := PushDown(s, a, b, [m']);
    assert Down(s', a, b) == Down(s, a, b) + [m'];
    DownChanged(s, s', a, b, m);
    DownChanged(s', s, a, b, m);
  }

  // ---- handling a client request ----

  lemma StoreCarried(s: Net, b: Id, st: Store, m: Msg)
    requires b in s.nodes
    ensures Carried(s.(nodes := s.nodes[b := s.nodes[b].(store := st)]), m) <==> Carried(s, m)
  {
    var s' := s.(nodes := s.nodes[b := s.nodes[b].(store := st)]);
    DownChanged(s, s', 0, 0, m);
    DownChanged(s', s, 0, 0, m);
    assert Down(s', 0, 0) == Down(s, 0, 0);
    if m in Down(s, 0, 0) { assert OnDown(s, m); }
  }

  /** A copy of (k, v) in the network or in hand. */
  ghost predicate CopyOrHand(s: Net, m: Msg, k: Ssn, v: Value) {
    Copy(s, k, v) || m == Insert(k, v)
  }

  lemma OwnedRequestCopies(s: Net, s': Net, b: Id, m: Msg, k: Ssn, v: Value)
    requires b in s.nodes && IsRequest(m) && Owns(s.nodes[b], m.k)
    requires s' == s.(nodes := s.nodes[b := HandleValue(s.nodes[b], m).0])
    ensures Copy(s', k, v) ==> CopyOrHand(s, m, k, v)
    ensures CopyOrHand(s, m, k, v) && m != Remove(k) ==> Present(s', k)
  {
    hide OnUdp, Hash8;
    var st := HandleValue(s.nodes[b], m).0.store;
    assert s' == s.(nodes := s.nodes[b := s.nodes[b].(store := st)]);
    StoreCarried(s, b, st, Insert(k, v));
    if Stored(s', k, v) {
      var a :| a in s'.nodes && HoldsAt(s'.nodes[a], k, v);
      assert a != b || m != Insert(k, v) ==> HoldsAt(s.nodes[a], k, v);
    }
    if Stored(s, k, v) && m != Remove(k) {
      var a :| a in s.nodes && HoldsAt(s.nodes[a], k, v);
      var v' := if a == b && m.Insert? && m.k == k then m.v else v;
      assert HoldsAt(s'.nodes[a], k, v');
      assert Copy(s', k, v');
    }
    if m == Insert(k, v) {
      assert HoldsAt(s'.nodes[b], k, v);
      assert Copy(s', k, v);
    }
    if Carried(s, Insert(k, v)) {
      assert Copy(s', k, v);
    }
  }

  /** Handling a request: what was a copy stays one or is overwritten, unless the key is removed. */
  lemma RequestCopies(s: Net, sh: Shape, loc: map<Id, Loc>, b: Id, m: Msg, k: Ssn, v: Value)
    requires Normal(s, sh, loc) && b in s.nodes && s.nodes[b].mode == Running && IsRequest(m)
    ensures Copy(Receive(s, b, m), k, v) ==> CopyOrHand(s, m, k, v)
    ensures CopyOrHand(s, m, k, v) && m != Remove(k) ==> Present(Receive(s, b, m), k)
  {
    ValueOk(s, sh, loc, b, m);
    var s' := Receive(s, b, m);
    if Owns(s.nodes[b], m.k) {
      OwnedRequestCopies(s, s', b, m, k, v);
    } else {
      PushDownCarried(s, b, sh.nxt[b], m, Insert(k, v));
      assert CopyOrHand(s, m, k, v) ==> Copy(s', k, v);
    }
  }

  lemma RequestCarried(s: Net, sh: Shape, loc: map<Id, Loc>, b: Id, m: Msg, m0: Msg)
    requires Normal(s, sh, loc) && b in s.nodes && s.nodes[b].mode == Running && IsRequest(m)
    ensures Carried(Receive(s, b, m), m0) ==> Carried(s, m0) || m0 == m
  {
    ValueOk(s, sh, loc, b, m);
    if Owns(s.nodes[b], m.k) {
      StoreCarried(s, b, HandleValue(s.nodes[b], m).0.store, m0);
    } else {
      PushDownCarried(s, b, sh.nxt[b], m, m0);
    }
  }

  // ---- the split ----

  lemma HandoverMembers(n: Node, next: Id, k: Ssn, v: Value)
    requires StoreOk(n.store)
    ensures Insert(k, v) in Handover(n, next) <==>
            HoldsAt(n, k, v) && !InRange(HashOf(k), n.lo, Mid(n.lo, n.hi))
    ensures forall m :: m in Handover(n, next) && IsRequest(m) ==> m.Insert?
  {
    var out := Outside(n.store.keys, n.lo, Mid(n.lo, n.hi));
    InsideMembers(n.store.keys, n.lo, Mid(n.lo, n.hi));
    InsertsMembers(out, n.store.vals);
    var h := Handover(n, next);
    assert h == [h[0]] + Inserts(out, n.store.vals);
  }

  lemma SplitCarried(s: Net, s': Net, w: Id, j: Id, o: Id, m: Msg)
    requires AfterSplit(s, s', w, j, o) && m != Close
    requires NoUp(s) && Down(s, w, j) == []
    ensures Carried(s', m) <==> Carried(s, m) || m in Handover(s.nodes[w], o)
  {
    if OnDown(s', m) {
      var x: Id, y: Id :| m in Down(s', x, y);
      assert (x, y) != (w, j) ==> m in Down(s, x, y);
    }
    if OnDown(s, m) {
      var x: Id, y: Id :| m in Down(s, x, y);
      assert m in Down(s', x, y);
    }
    if m in Handover(s.nodes[w], o) {
      assert m in Down(s', w, j);
    }
    assert !OnUp(s', m) && !OnUp(s, m);
    assert OnUdp(s', m) == OnUdp(s, m);
  }

  /** A split only moves copies. */
  lemma SplitCopies(s: Net, s': Net, w: Id, j: Id, o: Id, k: Ssn, v: Value)
    requires AfterSplit(s, s', w, j, o) && StoreOk(s.nodes[w].store)
    requires NoUp(s) && Down(s, w, j) == []
    ensures Copy(s', k, v) <==> Copy(s, k, v)
  {
    var n := s.nodes[w];
    SplitCarried(s, s', w, j, o, Insert(k, v));
    HandoverMembers(n, o, k, v);
    if Stored(s', k, v) {
      var a :| a in s'.nodes && HoldsAt(s'.nodes[a], k, v);
      assert HoldsAt(s.nodes[a], k, v);
    }
    if Stored(s, k, v) {
      var a :| a in s.nodes && HoldsAt(s.nodes[a], k, v);
      if a != w || InRange(HashOf(k), n.lo, Mid(n.lo, n.hi)) {
        assert HoldsAt(s'.nodes[a], k, v);
      }
    }
  }

  lemma NewcomerStream(s: Net, sh: Shape, loc: map<Id, Loc>, w: Id, j: Id)
    requires Normal(s, sh, loc) && Outsider(s, sh, j)
    ensures Down(s, w, j) == []
  {
    assert Down(s, w, j) != [] ==> Member(sh, j);
  }

  // ---- handling any plain message in hand ----

  lemma HandleCopies(s: Net, sh: Shape, loc: map<Id, Loc>, b: Id, m: Msg, k: Ssn, v: Value)
    requires Normal(s, sh, loc) && b in s.nodes && s.nodes[b].mode == Running && InHand(s, sh, loc, m)
    ensures Copy(Receive(s, b, m), k, v) ==> CopyOrHand(s, m, k, v)
    ensures CopyOrHand(s, m, k, v) && m != Remove(k) ==> Present(Receive(s, b, m), k)
  {
    hide Handle, Linked, LocalOk, Emit;
    var s' := Receive(s, b, m);
    if IsRequest(m) {
      RequestCopies(s, sh, loc, b, m, k, v);
    } else {
      assert Copy(s', k, v) <==> Copy(s, k, v) by {
        if Splits(s, b, m) {
          SplitEffect(s, sh, loc, b, m);
          NewcomerStream(s, sh, loc, b, m.src);
          MemberFields(s, sh, loc, b);
          SplitCopies(s, s', b, m.src, sh.nxt[b], k, v);
        } else {
          TokenPassOk(s, sh, loc, b, m);
          var m' := if m.maxSpan < Span(s.nodes[b]) then Join(m.src, Span(s.nodes[b]), b) else m;
          PushDownCarried(s, b, sh.nxt[b], m', Insert(k, v));
        }
      }
    }
  }

  lemma TokenCarried(s: Net, sh: Shape, loc: map<Id, Loc>, b: Id, m: Msg, m0: Msg)
    requires Normal(s, sh, loc) && b in s.nodes && s.nodes[b].mode == Running && InHand(s, sh, loc, m) && m.Join?
    requires IsRequest(m0)
    ensures Carried(Receive(s, b, m), m0) ==> Carried(s, m0) || (m0.Insert? && Stored(s, m0.k, m0.v))
  {
    hide Locals, Handle, AfterSplit, Tokens, HandleJoinResponse;
    if Splits(s, b, m) {
      SplitEffect(s, sh, loc, b, m);
      NewcomerStream(s, sh, loc, b, m.src);
      MemberFields(s, sh, loc, b);
      HandoverCarried(s, Receive(s, b, m), b, m.src, sh.nxt[b], m0);
    } else {
      TokenPassOk(s, sh, loc, b, m);
      var m' := if m.maxSpan < Span(s.nodes[b]) then Join(m.src, Span(s.nodes[b]), b) else m;
      PushDownCarried(s, b, sh.nxt[b], m', m0);
    }
  }

  lemma HandoverCarried(s: Net, s': Net, w: Id, j: Id, o: Id, m0: Msg)
    requires AfterSplit(s, s', w, j, o) && StoreOk(s.nodes[w].store) && IsRequest(m0)
    requires NoUp(s) && Down(s, w, j) == []
    ensures Carried(s', m0) ==> Carried(s, m0) || (m0.Insert? && Stored(s, m0.k, m0.v))
  {
    SplitCarried(s, s', w, j, o, m0);
    HandoverMembers(s.nodes[w], o, m0.k, if m0.Insert? then m0.v else Value([], []));
  }

  lemma HandleCarried(s: Net, sh: Shape, loc: map<Id, Loc>, b: Id, m: Msg, m0: Msg)
    requires Normal(s, sh, loc) && b in s.nodes && s.nodes[b].mode == Running && InHand(s, sh, loc, m) && IsRequest(m0)
    ensures Carried(Receive(s, b, m), m0) ==> Carried(s, m0) || m0 == m || (m0.Insert? && Stored(s, m0.k, m0.v))
  {
    if IsRequest(m) {
      RequestCarried(s, sh, loc, b, m, m0);
    } else {
      TokenCarried(s, sh, loc, b, m, m0);
    }
  }

  // ---- the events of a join that carry no request ----

  lemma AnswerCarried(s: Net, s': Net, b: Id, x: Id, c: Id, m: Msg, m0: Msg)
    requires AfterAnswer(s, s', b, x, c, m) && PlainMsg(m0) && Down(s, b, c) == [] && (b, c) != (x, b)
    requires NoUp(s)
    ensures Carried(s', m0) <==> Carried(s, m0)
  {
    var ch := Down(s, x, b);
    assert ch == [ch[0]] + ch[1..];
    if OnDown(s', m0) {
      var y: Id, z: Id :| m0 in Down(s', y, z);
      assert m0 in Down(s, y, z);
    }
    if OnDown(s, m0) {
      var y: Id, z: Id :| m0 in Down(s, y, z);
      assert m0 in Down(s', y, z);
    }
    assert !OnUp(s', m0) && !OnUp(s, m0);
    assert OnUdp(s', m0) == OnUdp(s, m0);
  }

  lemma CloseCarried(s: Net, s': Net, b: Id, x: Id, m0: Msg)
    requires AfterClose(s, s', b, x) && PlainMsg(m0) && Down(s, x, b) == [Close]
    requires NoUp(s)
    ensures Carried(s', m0) <==> Carried(s, m0)
  {
    if OnDown(s', m0) {
      var y: Id, z: Id :| m0 in Down(s', y, z);
      assert m0 in Down(s, y, z);
    }
    if OnDown(s, m0) {
      var y: Id, z: Id :| m0 in Down(s, y, z);
      assert m0 in Down(s', y, z);
    }
    assert !OnUp(s', m0) && !OnUp(s, m0);
    assert OnUdp(s', m0) == OnUdp(s, m0);
  }

  /** Nodes' tables are the same, apart from nodes with empty ones. */
  lemma SameStored(s: Net, s': Net, k: Ssn, v: Value)
    requires forall b :: b in s.nodes ==> b in s'.nodes && s'.nodes[b].store == s.nodes[b].store
    requires forall b :: b in s'.nodes && b !in s.nodes ==> s'.nodes[b].store == EMPTY_STORE
    ensures Stored(s', k, v) <==> Stored(s, k, v)
  {
    if Stored(s', k, v) {
      var a :| a in s'.nodes && HoldsAt(s'.nodes[a], k, v);
      assert HoldsAt(s.nodes[a], k, v);
    }
    if Stored(s, k, v) {
      var a :| a in s.nodes && HoldsAt(s.nodes[a], k, v);
      assert HoldsAt(s'.nodes[a], k, v);
    }
  }

  // ---- one event ----

  /** Event e hands message m to a node. */
  ghost predicate Handles(s: Net, e: Event, m: Msg) {
    Enabled(s, e) && Delivers(e) && DeliveryOf(s, e).m == m
  }

  lemma DeliveredCarried(s: Net, e: Event)
    requires Enabled(s, e) && Delivers(e)
    ensures Carried(s, DeliveryOf(s, e).m) && DeliveryOf(s, e).b in s.nodes
  {
    var d := DeliveryOf(s, e);
    match e
    case RecvUdp(p) => assert OnUdp(s, p.m);
    case RecvPred(b) => assert d.m in Down(s, s.nodes[b].pred.value, b);
    case RecvSucc(b) => assert d.m in Up(s, b, s.nodes[b].succ.value);
  }

  /** What an event does to the copies of (k, v), to key k and to requests m0. */
  ghost predicate DataStep(s: Net, s': Net, e: Event, k: Ssn, v: Value, m0: Msg) {
    && (Copy(s', k, v) ==> Copy(s, k, v) || (e.ClientSend? && e.m == Insert(k, v)))
    && (Copy(s, k, v) && !Handles(s, e, Remove(k)) ==> Present(s', k))
    && (Carried(s', m0) ==> Carried(s, m0) || (m0.Insert? && Stored(s, m0.k, m0.v)) || (e.ClientSend? && e.m == m0))
    && (e.ClientSend? && e.m == Insert(k, v) ==> Copy(s', k, v))
  }

  lemma ClientSendData(s: Net, sh: Shape, loc: map<Id, Loc>, e: Event, k: Ssn, v: Value, m0: Msg)
    requires Enabled(s, e) && e.ClientSend?
    ensures DataStep(s, Do(s, e), e, k, v, m0)
  {
    var s' := Do(s, e);
    var p := Packet(e.dest, e.m);
    assert s'.udp - multiset{p} == s.udp;
    assert s == s'.(udp := s'.udp - multiset{p});
    PopUdpCarried(s', p, m0);
    PopUdpCarried(s', p, Insert(k, v));
    if e.m == Insert(k, v) {
      assert p in s'.udp && OnUdp(s', Insert(k, v));
    }
    if Copy(s, k, v) {
      assert Copy(s', k, v);
    }
  }

  lemma JoinStartData(s: Net, e: Event, k: Ssn, v: Value, m0: Msg)
    requires Enabled(s, e) && e.JoinStart? && IsRequest(m0)
    ensures DataStep(s, Do(s, e), e, k, v, m0)
  {
    var s' := Do(s, e);
    var p := Packet(e.entry, Join(e.j, 0, 0));
    assert s'.udp - multiset{p} == s.udp;
    var s1 := s'.(udp := s'.udp - multiset{p});
    PopUdpCarried(s', p, m0);
    PopUdpCarried(s', p, Insert(k, v));
    DownChanged(s1, s, 0, 0, m0);
    DownChanged(s1, s, 0, 0, Insert(k, v));
    DownChanged(s, s1, 0, 0, m0);
    DownChanged(s, s1, 0, 0, Insert(k, v));
    assert Down(s1, 0, 0) == Down(s, 0, 0);
    SameStored(s, s', k, v);
    if Copy(s, k, v) {
      assert Copy(s', k, v);
    }
  }

  lemma AcceptData(s: Net, e: Event, k: Ssn, v: Value, m0: Msg)
    requires Enabled(s, e) && e.Accept?
    ensures DataStep(s, Do(s, e), e, k, v, m0)
  {
    var s' := Do(s, e);
    DownChanged(s, s', 0, 0, m0);
    DownChanged(s, s', 0, 0, Insert(k, v));
    DownChanged(s', s, 0, 0, m0);
    DownChanged(s', s, 0, 0, Insert(k, v));
    assert Down(s', 0, 0) == Down(s, 0, 0);
    SameStored(s, s', k, v);
    if Copy(s, k, v) {
      assert Copy(s', k, v);
    }
  }

  /** From the rest of the network plus a message in hand to the network after handling it. */
  lemma HandleData(s: Net, rest: Net, sh: Shape, loc: map<Id, Loc>, e: Event, b: Id, m: Msg, k: Ssn, v: Value, m0: Msg)
    requires Normal(rest, sh, loc) && b in rest.nodes && rest.nodes[b].mode == Running && InHand(rest, sh, loc, m)
    requires IsRequest(m0) && !e.ClientSend?
    requires Copy(s, k, v) <==> CopyOrHand(rest, m, k, v)
    requires (Carried(rest, m0) ==> Carried(s, m0)) && Carried(s, m) && Handles(s, e, m)
    requires m0.Insert? ==> (Stored(rest, m0.k, m0.v) <==> Stored(s, m0.k, m0.v))
    ensures DataStep(s, Receive(rest, b, m), e, k, v, m0)
  {
    HandleCopies(rest, sh, loc, b, m, k, v);
    HandleCarried(rest, sh, loc, b, m, m0);
  }

  lemma RecvUdpData(s: Net, sh: Shape, loc: map<Id, Loc>, e: Event, k: Ssn, v: Value, m0: Msg)
    requires Normal(s, sh, loc) && Enabled(s, e) && e.RecvUdp? && IsRequest(m0)
    ensures DataStep(s, Do(s, e), e, k, v, m0)
  {
    hide Locals, OnDown, Handle, LocalOk, Streams;
    var rest := s.(udp := s.udp - multiset{e.p});
    PopUdpOk(s, sh, loc, e.p);
    PopUdpCarried(s, e.p, m0);
    PopUdpCarried(s, e.p, Insert(k, v));
    assert OnUdp(s, e.p.m);
    HandleData(s, rest, sh, LocWithout(loc, e.p.m), e, e.p.dest, e.p.m, k, v, m0);
  }

  lemma RecvPlainData(s: Net, sh: Shape, loc: map<Id, Loc>, e: Event, k: Ssn, v: Value, m0: Msg)
    requires Normal(s, sh, loc) && Enabled(s, e) && e.RecvPred? && IsRequest(m0)
    requires s.nodes[e.b].mode == Running && PlainMsg(Down(s, s.nodes[e.b].pred.value, e.b)[0])
    ensures DataStep(s, Do(s, e), e, k, v, m0)
  {
    hide Streams, Locals, TokensOn, Receive, Stored, OnUp;
    var x := s.nodes[e.b].pred.value;
    var m := Down(s, x, e.b)[0];
    PopDownOk(s, sh, loc, e.b);
    PopDownCarried(s, x, e.b, m0);
    PopDownCarried(s, x, e.b, Insert(k, v));
    assert m in Down(s, x, e.b);
    assert OnDown(s, m);
    HandleData(s, PopDown(s, x, e.b), sh, LocWithout(loc, m), e, e.b, m, k, v, m0);
  }

  lemma AnswerData(s: Net, sh: Shape, loc: map<Id, Loc>, e: Event, k: Ssn, v: Value, m0: Msg)
    requires Normal(s, sh, loc) && AtAnswer(s, sh, e) && IsRequest(m0)
    ensures DataStep(s, Do(s, e), e, k, v, m0)
  {
    hide Tiles, StreamOk, KeysWithin, OnDown, OnUp, OnUdp, PopUp, Quiescent, Handle, Tokens, DeliveryOf;
    var b := e.b;
    var x := s.nodes[b].pred.value;
    var c := sh.nxt[b];
    AnswerEffect(s, sh, e);
    assert LocalOk(s, sh, b);
    assert Member(sh, c) && LocalOk(s, sh, c);
    assert b !in Pipe(s, c);
    AnswerCarried(s, Do(s, e), b, x, c, Down(s, x, b)[0], m0);
    AnswerCarried(s, Do(s, e), b, x, c, Down(s, x, b)[0], Insert(k, v));
    SameStored(s, Do(s, e), k, v);
    if Copy(s, k, v) {
      assert Copy(Do(s, e), k, v);
    }
  }

  lemma CloseStream(s: Net, sh: Shape, e: Event)
    requires Locals(s, sh) && AtClose(s, e)
    ensures Down(s, s.nodes[e.b].pred.value, e.b) == [Close]
  {
    IsMember(s, sh, e.b);
    assert LocalOk(s, sh, e.b);
    PipeDrop(s, s, e.b, Pipe(s, e.b), LinkFrom(s, sh.prv[e.b], e.b));
  }

  lemma CloseData(s: Net, sh: Shape, loc: map<Id, Loc>, e: Event, k: Ssn, v: Value, m0: Msg)
    requires Normal(s, sh, loc) && AtClose(s, e) && IsRequest(m0)
    ensures DataStep(s, Do(s, e), e, k, v, m0)
  {
    hide Locals, Handle, Linked, NodeOk, Quiescent;
    var x := s.nodes[e.b].pred.value;
    CloseEffect(s, sh, loc, e);
    CloseStream(s, sh, e);
    CloseCarried(s, Do(s, e), e.b, x, m0);
    CloseCarried(s, Do(s, e), e.b, x, Insert(k, v));
    SameStored(s, Do(s, e), k, v);
    if Copy(s, k, v) {
      assert Copy(Do(s, e), k, v);
    }
  }

  lemma NormalData(s: Net, sh: Shape, loc: map<Id, Loc>, e: Event, k: Ssn, v: Value, m0: Msg)
    requires Normal(s, sh, loc) && Enabled(s, e) && !e.LeaveStart? && IsRequest(m0)
    ensures DataStep(s, Do(s, e), e, k, v, m0)
  {
    hide Do;
    match e
    case ClientSend(_, _) => ClientSendData(s, sh, loc, e, k, v, m0);
    case JoinStart(_, _) => JoinStartData(s, e, k, v, m0);
    case Accept(_) => AcceptData(s, e, k, v, m0);
    case RecvUdp(_) => RecvUdpData(s, sh, loc, e, k, v, m0);
    case RecvPred(b) =>
      IsMember(s, sh, b);
      if s.nodes[b].mode == JoinWait {
        AnswerData(s, sh, loc, e, k, v, m0);
      } else {
        assert LocalOk(s, sh, b);
        RunningHead(s, sh, b);
        if Down(s, s.nodes[b].pred.value, b)[0] == Close {
          CloseData(s, sh, loc, e, k, v, m0);
        } else {
          RecvPlainData(s, sh, loc, e, k, v, m0);
        }
      }
    case RecvSucc(_) =>
    case LeaveDone =>
    case LeaveStart(_) =>
  }
}
