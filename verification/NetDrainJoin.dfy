/** A join ends: once its token has been answered, relinking and shipping the entries takes a number of
    events that only depends on the number of entries shipped. */
module NetDrainJoin {
  import opened Base
  import opened Hash
  import opened Ranges
  import opened StoreSpec
  import opened NodeSpec
  import opened Network
  import opened NetViews
  import opened Ring
  import opened NetInv
  import opened NetJoin
  import opened NetCore
  import opened NetLeave
  import opened NetTokens
  import opened NetSingle
  import opened NetRounds
  import opened NetRoundTrip
  import opened NetDrainLeave

  /** What w writes to the joiner: the answer, then entries for the joiner. */
  ghost predicate Shipment(ch: seq<Msg>, lo: int, hi: int) {
    forall i {:trigger ch[i]} :: 0 <= i < |ch| ==>
      ch[i].JoinResponse? || (ch[i].Insert? && InRange(HashOf(ch[i].k), lo, hi))
  }

  /** w has split for j, in front of o, and the three are finding each other. */
  ghost predicate Relinking(s: Net, sh: Shape, w: Id, j: Id, o: Id) {
    && Settling(s, sh) && Member(sh, j) && w != j && o != j && w in s.nodes && j in s.nodes && o in s.nodes
    && j in sh.lo && j in sh.hi && sh.nxt[j] == o && s.udp == multiset{}
    && Shipment(Down(s, w, j), sh.lo[j], sh.hi[j]) && (Down(s, w, o) == [] || Down(s, w, o) == [Close])
    && (forall x: Id, y: Id {:trigger Down(s, x, y)} ::
          Down(s, x, y) != [] ==> (x, y) == (w, j) || ((x, y) == (w, o) && o != w))
    && (forall b {:trigger Backlog(s, b)} :: b in s.nodes && Backlog(s, b) != [] ==> b == j || b == o)
    && (forall b {:trigger s.nodes[b]} :: b in s.nodes && b != j ==> InRing(s.nodes[b]))
  }

  /** Everything that still has to happen: reads, accepts, and the joiner's connection to o. */
  ghost function RelinkLeft(s: Net, w: Id, j: Id, o: Id): nat
    requires j in s.nodes
  {
    |Down(s, w, j)| + |Down(s, w, o)| + |Backlog(s, j)| + |Backlog(s, o)| + (if InRing(s.nodes[j]) then 0 else 1)
  }

  // ---- each event ----

  /** What can happen while the ring relinks. */
  lemma RelinkEvents(s: Net, sh: Shape, w: Id, j: Id, o: Id, e: Event)
    requires Relinking(s, sh, w, j, o) && Enabled(s, e) && !External(e)
    ensures e == Accept(j) || e == Accept(o) || e == RecvPred(j) || (e == RecvPred(o) && o != w)
    ensures e == RecvPred(j) ==> s.nodes[j].pred == Some(w) && Down(s, w, j) != []
    ensures e == RecvPred(o) ==> s.nodes[o].pred == Some(w) && Down(s, w, o) == [Close] && s.nodes[o].mode == Running
  {
    hide Locals, Tokens, HashOf;
    if e.RecvPred? {
      OnlyNormal(s, sh, e.b);
    }
  }

  lemma OnlyNormal(s: Net, sh: Shape, b: Id)
    requires Settling(s, sh) && b in s.nodes
    ensures s.nodes[b].mode != LeaveWait
  {
    NoLeaver(s, sh, b);
  }

  lemma AcceptViews(s: Net, b: Id)
    requires Enabled(s, Accept(b))
    ensures var s' := Do(s, Accept(b));
            && Backlog(s, b) != [] && s'.nodes.Keys == s.nodes.Keys && s'.udp == s.udp
            && (InRing(s.nodes[b]) <==> InRing(s'.nodes[b]))
            && (forall a :: a in s.nodes && a != b ==> s'.nodes[a] == s.nodes[a])
            && (forall x: Id, y: Id {:trigger Down(s', x, y)} :: Down(s', x, y) == Down(s, x, y))
            && (forall a {:trigger Backlog(s', a)} ::
                  Backlog(s', a) == if a == b then Backlog(s, b)[1..] else Backlog(s, a))
  {
  }

  lemma AcceptRelinks(s: Net, sh: Shape, w: Id, j: Id, o: Id, b: Id)
    requires Relinking(s, sh, w, j, o) && Enabled(s, Accept(b)) && (b == j || b == o)
    ensures var s' := Do(s, Accept(b));
            Settling(s', sh) ==>
              Relinking(s', sh, w, j, o) && RelinkLeft(s', w, j, o) == RelinkLeft(s, w, j, o) - 1
  {
    hide Settling, Shipment, Enabled;
    var s' := Do(s, Accept(b));
    AcceptViews(s, b);
    hide Do;
    forall a {:trigger s'.nodes[a]} | a in s'.nodes && a != j ensures InRing(s'.nodes[a]) {
      assert a != b ==> s'.nodes[a] == s.nodes[a];
    }
  }

  lemma ShipmentRest(ch: seq<Msg>, lo: int, hi: int)
    requires Shipment(ch, lo, hi) && ch != []
    ensures Shipment(ch[1..], lo, hi)
  {
    hide HashOf;
    forall i {:trigger ch[1..][i]} | 0 <= i < |ch[1..]|
      ensures ch[1..][i].JoinResponse? || (ch[1..][i].Insert? && InRange(HashOf(ch[1..][i].k), lo, hi))
    {
      assert ch[1..][i] == ch[i + 1];
    }
  }

  lemma AnswerRelinks(s: Net, s': Net, sh: Shape, w: Id, j: Id, o: Id, m: Msg)
    requires Relinking(s, sh, w, j, o) && AfterAnswer(s, s', j, w, o, m) && s.nodes[j].mode == JoinWait
    requires Settling(s', sh)
    ensures Relinking(s', sh, w, j, o) && RelinkLeft(s', w, j, o) == RelinkLeft(s, w, j, o) - 1
  {
    hide Settling, Shipment;
    ShipmentRest(Down(s, w, j), sh.lo[j], sh.hi[j]);
    assert Down(s', w, j) == Down(s, w, j)[1..] && Down(s', w, o) == Down(s, w, o);
    assert Backlog(s', o) == Backlog(s, o) + [j] && Backlog(s', j) == Backlog(s, j);
  }

  /** The joiner's table grows by one shipped entry. */
  ghost predicate Shipped(s: Net, s': Net, w: Id, j: Id) {
    && j in s.nodes && s'.nodes.Keys == s.nodes.Keys
    && (forall b :: b in s.nodes && b != j ==> s'.nodes[b] == s.nodes[b])
    && InRing(s'.nodes[j]) && s'.udp == s.udp
    && (forall a {:trigger Backlog(s', a)} :: Backlog(s', a) == Backlog(s, a))
    && Down(s, w, j) != []
    && (forall x: Id, y: Id {:trigger Down(s', x, y)} ::
          Down(s', x, y) == if (x, y) == (w, j) then Down(s, w, j)[1..] else Down(s, x, y))
  }

  lemma ShipRelinks(s: Net, s': Net, sh: Shape, w: Id, j: Id, o: Id)
    requires Relinking(s, sh, w, j, o) && Shipped(s, s', w, j) && InRing(s.nodes[j]) && Settling(s', sh)
    ensures Relinking(s', sh, w, j, o) && RelinkLeft(s', w, j, o) == RelinkLeft(s, w, j, o) - 1
  {
    hide Settling, Shipment;
    ShipmentRest(Down(s, w, j), sh.lo[j], sh.hi[j]);
  }

  lemma ShipEffect(s: Net, sh: Shape, w: Id, j: Id, o: Id)
    requires Relinking(s, sh, w, j, o) && Enabled(s, RecvPred(j)) && s.nodes[j].mode == Running
    requires s.nodes[j].pred == Some(w)
    ensures Shipped(s, Do(s, RecvPred(j)), w, j)
  {
    hide Relinking, Shipped, Do, Enabled;
    var n' := ShipReaction(s, sh, w, j, o);
    ShippedViews(s, Do(s, RecvPred(j)), w, j, n');
  }

  lemma ShipReaction(s: Net, sh: Shape, w: Id, j: Id, o: Id) returns (n': Node)
    requires Relinking(s, sh, w, j, o) && Enabled(s, RecvPred(j)) && s.nodes[j].mode == Running
    requires s.nodes[j].pred == Some(w)
    ensures j in s.nodes && Down(s, w, j) != [] && InRing(n')
    ensures Do(s, RecvPred(j)) == PopDown(s, w, j).(nodes := s.nodes[j := n'])
  {
    hide Relinking;
    ShippedHead(s, sh, w, j, o);
    var m := Down(s, w, j)[0];
    var rest := PopDown(s, w, j);
    n' := s.nodes[j].(store := Put(s.nodes[j].store, m.k, m.v));
    assert Handle(j, s.nodes[j], m) == (n', SILENT) by {
      hide HashOf, HandleJoin, HandleNewRange, HandleLeaving, HandleClose;
    }
    QuietEmit(rest, j, s.nodes[j], n', SILENT);
    hide Handle, Emit, HashOf, Settling, Shipment, HandleJoinResponse, Depart, Put;
  }

  lemma ShippedViews(s: Net, s': Net, w: Id, j: Id, n': Node)
    requires j in s.nodes && Down(s, w, j) != [] && InRing(n') && s' == PopDown(s, w, j).(nodes := s.nodes[j := n'])
    ensures Shipped(s, s', w, j)
  {
  }

  lemma ShippedHead(s: Net, sh: Shape, w: Id, j: Id, o: Id)
    requires Relinking(s, sh, w, j, o) && Down(s, w, j) != []
    requires s.nodes[j].mode == Running && s.nodes[j].pred == Some(w)
    ensures Down(s, w, j)[0].Insert? && Owns(s.nodes[j], Down(s, w, j)[0].k) && PlainMsg(Down(s, w, j)[0])
  {
    hide HashOf, Streams, Tokens;
    RunningHead(s, sh, j);
    assert LocalOk(s, sh, j);
  }

  lemma CloseRelinks(s: Net, s': Net, sh: Shape, w: Id, j: Id, o: Id)
    requires Relinking(s, sh, w, j, o) && AfterClose(s, s', o, w) && o != w
    requires Down(s, w, o) == [Close] && Settling(s', sh)
    ensures Relinking(s', sh, w, j, o) && RelinkLeft(s', w, j, o) == RelinkLeft(s, w, j, o) - 1
  {
    hide Settling, Shipment;
    forall a {:trigger Backlog(s', a)} ensures Backlog(s', a) == Backlog(s, a) {}
    assert Down(s', w, j) == Down(s, w, j) && Down(s', w, o) == [];
  }

  /** Every event brings the ring nearer to rest by one. */
  lemma RelinkStep(s: Net, sh: Shape, w: Id, j: Id, o: Id, e: Event)
    requires Relinking(s, sh, w, j, o) && Enabled(s, e) && !External(e)
    ensures Relinking(Do(s, e), sh, w, j, o)
    ensures RelinkLeft(Do(s, e), w, j, o) == RelinkLeft(s, w, j, o) - 1
  {
    hide Locals, Do, Streams, DeliveryOf, Shipped, HandleJoin;
    RelinkEvents(s, sh, w, j, o, e);
    SettlingStep(s, sh, e);
    var s' := Do(s, e);
    if e.Accept? {
      hide Settling, Do, Enabled, Relinking, RelinkLeft;
      AcceptRelinks(s, sh, w, j, o, e.b);
    } else if e.b == j && s.nodes[j].mode == JoinWait {
      hide Do, Locals, Streams, Tokens, AfterAnswer, Shipment, RelinkLeft;
      AnswerEffect(s, sh, e);
      AnswerRelinks(s, s', sh, w, j, o, Down(s, w, j)[0]);
    } else if e.b == j {
      JoinerModes(s, sh, w, j, o);
      hide Settling, Do, Relinking, Shipped, RelinkLeft;
      ShipEffect(s, sh, w, j, o);
      ShipRelinks(s, s', sh, w, j, o);
    } else {
      hide Do, Normal, AfterClose, Shipment, RelinkLeft;
      CloseEffect(s, sh, map[], e);
      CloseRelinks(s, s', sh, w, j, o);
    }
  }

  lemma JoinerModes(s: Net, sh: Shape, w: Id, j: Id, o: Id)
    requires Relinking(s, sh, w, j, o) && Enabled(s, RecvPred(j)) && s.nodes[j].mode != JoinWait
    ensures s.nodes[j].mode == Running && InRing(s.nodes[j])
  {
    OnlyNormal(s, sh, j);
  }

  lemma {:induction false} RelinkRun(s: Net, sh: Shape, w: Id, j: Id, o: Id, es: seq<Event>)
    requires Relinking(s, sh, w, j, o) && IsRun(s, es) && Busy(es)
    ensures |es| <= RelinkLeft(s, w, j, o) && Relinking(After(s, es), sh, w, j, o)
    ensures RelinkLeft(After(s, es), w, j, o) == RelinkLeft(s, w, j, o) - |es|
    decreases |es|
  {
    hide Do, Enabled, Relinking, RelinkLeft;
    RelinkingHas(s, sh, w, j, o);
    if es != [] {
      BusyTail(es);
      RelinkStep(s, sh, w, j, o, es[0]);
      RelinkingHas(Do(s, es[0]), sh, w, j, o);
      RelinkRun(Do(s, es[0]), sh, w, j, o, es[1..]);
    }
  }

  lemma RelinkingHas(s: Net, sh: Shape, w: Id, j: Id, o: Id)
    requires Relinking(s, sh, w, j, o)
    ensures j in s.nodes
  {
  }

  // ---- from the split ----

  /** The number of entries a split ships. */
  ghost function ShippedCount(n: Node): nat {
    |Outside(n.store.keys, n.lo, Mid(n.lo, n.hi))|
  }

  lemma HandoverShips(n: Node, next: Id)
    requires StoreOk(n.store) && n.lo < n.hi && KeysWithin(n.store, n.lo, n.hi)
    ensures |Handover(n, next)| == 1 + ShippedCount(n)
    ensures Shipment(Handover(n, next), AfterMid(n.lo, n.hi), n.hi)
  {
    var keys := Outside(n.store.keys, n.lo, Mid(n.lo, n.hi));
    InsideMembers(n.store.keys, n.lo, Mid(n.lo, n.hi));
    InsertsCount(keys, n.store.vals);
    InsertsMembers(keys, n.store.vals);
    SplitIsLegalIff(n.lo, n.hi);
    hide HashOf, Outside, Inside, Inserts, Mid;
    var h := Handover(n, next);
    forall i {:trigger h[i]} | 0 <= i < |h|
      ensures h[i].JoinResponse? || (h[i].Insert? && InRange(HashOf(h[i].k), AfterMid(n.lo, n.hi), n.hi))
    {
      if i > 0 {
        assert h[i] == Inserts(keys, n.store.vals)[i - 1];
        assert h[i] in Inserts(keys, n.store.vals);
      }
    }
  }

  /** The ring right after a split for joiner j in an otherwise still network. */
  lemma RelinkStart(s: Net, s': Net, sh: Shape, sh': Shape, w: Id, j: Id, o: Id)
    requires InOrder(s, sh, {j}) && Still(s) && Member(sh, w) && sh.nxt[w] == o && IsInsertion(sh, sh', w, j)
    requires o in s.nodes && w in s.nodes && s.nodes[w].lo < s.nodes[w].hi
    requires AfterSplit(s, s', w, j, o) && Settling(s', sh')
    ensures Relinking(s', sh', w, j, o)
    ensures RelinkLeft(s', w, j, o) == ShippedCount(s.nodes[w]) + 3 + (if o != w then 1 else 0)
  {
    hide Settling, Handover, Shipment, AfterSplit, InOrder, Still, ShippedCount,
         AfterMid, IsInsertion, StoreOk, KeysWithin;
    JoinersRange(s, sh, sh', w, j, o);
    HandoverShips(s.nodes[w], o);
    StartModes(s, s', sh, w, j, o);
    StartStreams(s, s', sh, w, j, o);
  }

  lemma StartStreams(s: Net, s': Net, sh: Shape, w: Id, j: Id, o: Id)
    requires InOrder(s, sh, {j}) && Still(s) && AfterSplit(s, s', w, j, o) && w != j && o != j && o in s.nodes
    ensures s'.udp == multiset{} && Down(s', w, j) == Handover(s.nodes[w], o)
    ensures Down(s', w, o) == if o != w then [Close] else []
    ensures forall x: Id, y: Id {:trigger Down(s', x, y)} ::
              Down(s', x, y) != [] ==> (x, y) == (w, j) || ((x, y) == (w, o) && o != w)
    ensures |Backlog(s', j)| == 1 && Backlog(s', o) == []
  {
    hide Handover, ShapeOk;
    assert [] + [Close] == [Close];
    BacklogStill(s, sh, j, j);
    BacklogStill(s, sh, j, o);
    assert Backlog(s', j) == [] + [w];
  }

  lemma StartModes(s: Net, s': Net, sh: Shape, w: Id, j: Id, o: Id)
    requires InOrder(s, sh, {j}) && AfterSplit(s, s', w, j, o) && w != j
    ensures s'.nodes.Keys == s.nodes.Keys && j in s'.nodes && !InRing(s'.nodes[j])
    ensures forall b {:trigger s'.nodes[b]} :: b in s'.nodes && b != j ==> InRing(s'.nodes[b])
    ensures forall b {:trigger Backlog(s', b)} :: b in s'.nodes && Backlog(s', b) != [] ==> b == j
  {
    hide Handover, KeepLower, ShapeOk;
    assert Fresh(s, j);
    forall b {:trigger s'.nodes[b]} | b in s'.nodes && b != j ensures InRing(s'.nodes[b]) {
      MembersRun(s, sh, j, b);
    }
    forall b {:trigger Backlog(s', b)} | b in s'.nodes && Backlog(s', b) != [] ensures b == j {
      BacklogStill(s, sh, j, b);
    }
  }

  lemma MembersRun(s: Net, sh: Shape, j: Id, b: Id)
    requires InOrder(s, sh, {j}) && b in s.nodes && b != j
    ensures InRing(s.nodes[b])
  {
    assert Member(sh, b) && CleanNode(s, sh, b);
  }

  lemma BacklogStill(s: Net, sh: Shape, j: Id, b: Id)
    requires InOrder(s, sh, {j})
    ensures b in s.nodes ==> Backlog(s, b) == []
  {
    if b in s.nodes {
      if b == j {
        assert Fresh(s, j);
      } else {
        assert Member(sh, b) && CleanNode(s, sh, b);
      }
    }
  }

  lemma JoinersRange(s: Net, sh: Shape, sh': Shape, w: Id, j: Id, o: Id)
    requires InOrder(s, sh, {j}) && Member(sh, w) && sh.nxt[w] == o && IsInsertion(sh, sh', w, j)
    requires w in s.nodes && s.nodes[w].lo < s.nodes[w].hi
    ensures Member(sh', j) && j in sh'.lo && j in sh'.hi && sh'.nxt[j] == o && w != j && o != j
    ensures sh'.lo[j] == AfterMid(s.nodes[w].lo, s.nodes[w].hi) && sh'.hi[j] == s.nodes[w].hi
    ensures StoreOk(s.nodes[w].store) && KeysWithin(s.nodes[w].store, s.nodes[w].lo, s.nodes[w].hi)
  {
    assert CleanNode(s, sh, w) && Member(sh, o);
    SplitIsLegalIff(s.nodes[w].lo, s.nodes[w].hi);
  }
}
