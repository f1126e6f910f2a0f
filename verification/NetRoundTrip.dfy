/** Whole rounds in a quiet ring: how long a request and a token travel, what a join and a leave do to
    the ring, and that they undo each other. */
module NetRoundTrip {
  import opened Base
  import opened Hash
  import opened Ranges
  import opened StoreSpec
  import opened NodeSpec
  import opened Network
  import opened Ring
  import opened RingWalk
  import opened NetLeave
  import opened NetTail
  import opened NetTheorems
  import opened NetSingle
  import opened NetMap
  import opened NetRounds

  /** Nothing starts: the network only works off what is in it. */
  ghost predicate Busy(es: seq<Event>) {
    forall i :: 0 <= i < |es| ==> !External(es[i])
  }

  lemma BusyTail(es: seq<Event>)
    requires Busy(es) && es != []
    ensures !External(es[0]) && Busy(es[1..])
  {
    forall i | 0 <= i < |es[1..]| ensures !External(es[1..][i]) {
      assert es[1..][i] == es[i + 1];
    }
  }

  // ---- a request ----

  lemma HopsStep(i: nat, o: nat, n: nat)
    requires i < n && o < n && i != o
    ensures Hops(Succ(i, n), o, n) == Hops(i, o, n) - 1
  {
  }

  lemma OneOwner(s: Net, sh: Shape, m: Msg, i: nat, o: nat)
    requires InOrder(s, sh, {}) && IsRequest(m) && i < |sh.order| && o < |sh.order|
    requires sh.order[i] in s.nodes && sh.order[o] in s.nodes && Owns(s.nodes[sh.order[o]], m.k)
    ensures Owns(s.nodes[sh.order[i]], m.k) <==> i == o
  {
    assert Member(sh, sh.order[i]) && Member(sh, sh.order[o]);
    assert CleanNode(s, sh, sh.order[i]) && CleanNode(s, sh, sh.order[o]);
    if Owns(s.nodes[sh.order[i]], m.k) {
      OwnerUnique(sh.order, sh.lo, sh.hi, HashOf(m.k), i, o);
    }
  }

  /** A request that entered a quiet ring at index i is handled at its owner, index o, by the event
      after Hops(i, o) <= n - 1 forwards, whatever the scheduler does, and is answered from the map. */
  lemma {:induction false} RequestTravels(s: Net, sh: Shape, m: Msg, t: Table, i: nat, o: nat, es: seq<Event>)
    requires i < |sh.order| && o < |sh.order| && Asking(s, sh, m, sh.order[i], t)
    requires sh.order[o] in s.nodes && Owns(s.nodes[sh.order[o]], m.k)
    requires SerialRun(s, es) && |es| == Hops(i, o, |sh.order|) + 1
    ensures Clean(After(s, es), sh) && Agrees(After(s, es), Apply(t, m)) && Replies(s, es) == AnswerTo(t, m)
    decreases |es|
  {
    hide OnlyMessage, Agrees, CleanNode, Tiles, Clean, Do, DeliveryOf, Handle;
    AskingStep(s, sh, m, sh.order[i], t, es[0]);
    OneOwner(s, sh, m, i, o);
    if i == o {
      assert es[1..] == [];
      assert Replies(s, es) == ReplyIn(s, es[0]) + [];
    } else {
      var n := |sh.order|;
      HopsStep(i, o, n);
      assert sh.nxt[sh.order[i]] == sh.order[Succ(i, n)];
      AskingNodes(s, sh, m, sh.order[i], t, es[0]);
      RequestTravels(Do(s, es[0]), sh, m, t, Succ(i, n), o, es[1..]);
    }
  }

  lemma AskingNodes(s: Net, sh: Shape, m: Msg, b: Id, t: Table, e: Event)
    requires Asking(s, sh, m, b, t) && Enabled(s, e) && (External(e) ==> Quiescent(s))
    requires b in s.nodes && !Owns(s.nodes[b], m.k)
    ensures Do(s, e).nodes == s.nodes
  {
    WayStep(s, sh, m, b, e);
  }

  // ---- a join ----

  lemma {:induction false} SteadyRun(s: Net, sh: Shape, es: seq<Event>)
    requires Settling(s, sh) && IsRun(s, es) && Busy(es)
    ensures Settling(After(s, es), sh)
    decreases |es|
  {
    if es != [] {
      BusyTail(es);
      SettlingStep(s, sh, es[0]);
      SteadyRun(Do(s, es[0]), sh, es[1..]);
    }
  }

  /** The token travels on, or was answered on the way and the ring relinks. */
  lemma {:induction false} SoughtRun(s: Net, ph: Phase, es: seq<Event>) returns (ph': Phase)
    requires ph.Sought? && PhaseInv(s, ph) && IsRun(s, es) && Busy(es)
    ensures PhaseInv(After(s, es), ph')
    ensures ph' == ph.(t := ph.t + |es|) || (ph'.Steady? && JoinResult(ph.sh, ph'.sh, s.nodes, ph.j, ph.i))
    decreases |es|
  {
    hide TokenTravels, OnTheWay, JoinResult, Settling;
    if es == [] {
      ph' := ph;
    } else {
      BusyTail(es);
      var ph1 := SoughtStep(s, ph, es[0]);
      if ph1.Steady? {
        SteadyRun(Do(s, es[0]), ph1.sh, es[1..]);
        ph' := ph1;
      } else {
        ph' := SoughtRun(Do(s, es[0]), ph1, es[1..]);
      }
    }
  }

  /** A join round: a node starts joining a quiet ring, and the network works off what follows. */
  ghost predicate JoinRound(s: Net, es: seq<Event>) {
    IsRun(s, es) && es != [] && es[0].JoinStart? && Busy(es[1..])
  }

  /** A join that has drained put the joiner behind the first node of maximal span. */
  lemma JoinDrained(s: Net, sh: Shape, es: seq<Event>) returns (sh': Shape, i: nat)
    requires Clean(s, sh) && JoinRound(s, es) && Quiescent(After(s, es))
    ensures i < |sh.order| && sh.order[i] == es[0].entry
    ensures JoinResult(sh, sh', Do(s, es[0]).nodes, es[0].j, i) && Clean(After(s, es), sh')
    ensures |sh.order| > 1 ==>
              && RingOf(sh.order, Do(s, es[0]).nodes)
              && exists d: nat :: FirstMaximum(sh.order, Do(s, es[0]).nodes, i, d)
                                  && IsInsertion(sh, sh', Visited(sh.order, i, d), es[0].j)
  {
    hide Clean, IsInsertion, FirstMaximum, RingOf, Quiescent, Tiles;
    i := SeekStart(s, sh, es[0]);
    var ph := SoughtRun(Do(s, es[0]), Sought(sh, es[0].j, i, 0), es[1..]);
    QuietPhase(After(s, es), ph);
    if ph.Sought? {
      SoughtNotQuiet(After(s, es), ph);
    }
    sh' := ph.sh;
  }

  lemma SoughtNotQuiet(s: Net, ph: Phase)
    requires ph.Sought? && PhaseInv(s, ph)
    ensures !Quiescent(s)
  {
    NotQuiescent(s, if |ph.sh.order| == 1 then Join(ph.j, 0, 0) else TokenAfter(ph.sh.order, s.nodes, ph.j, ph.i, ph.t),
                    if |ph.sh.order| == 1 then ph.sh.order[0] else Visited(ph.sh.order, ph.i, ph.t));
  }

  // ---- a leave ----

  lemma CleanIsIdle(s: Net, sh: Shape, e: Event)
    requires Clean(s, sh) && Enabled(s, e)
    ensures External(e)
  {
    forall b | b in s.nodes ensures s.nodes[b].mode == Running && Backlog(s, b) == [] {
      assert Member(sh, b) && CleanNode(s, sh, b);
    }
  }

  lemma {:induction false} TailRun(s: Net, sh: Shape, l: Id, p: Id, o: Id, es: seq<Event>)
    requires Tail(s, sh, l, p, o) && IsRun(s, es) && Busy(es) && !After(s, es).leaving
    ensures Clean(After(s, es), sh)
    decreases |es|
  {
    BusyTail(es);
    TailStep(s, sh, l, p, o, es[0]);
    if es[0].LeaveDone? {
      if es[1..] != [] {
        BusyTail(es[1..]);
        CleanIsIdle(Do(s, es[0]), sh, es[1..][0]);
      }
    } else {
      TailRun(Do(s, es[0]), sh, l, p, o, es[1..]);
    }
  }

  lemma AnsweredRun(q: Net, s: Net, sh: Shape, sh': Shape, l: Id, es: seq<Event>)
    requires AnsweredSetting(q, s, sh, sh', l) && IsRun(s, es) && Busy(es) && !After(s, es).leaving
    ensures Clean(After(s, es), sh')
  {
    BusyTail(es);
    OnlyLeaverReads(q, s, sh, sh', l, es[0]);
    FarewellEffect(q, s, sh, sh', l);
    DepartTail(q, s, Do(s, es[0]), sh, sh', l);
    TailRun(Do(s, es[0]), sh', l, sh.prv[l], sh.nxt[l], es[1..]);
  }

  lemma OfferedRun(q: Net, s: Net, sh: Shape, l: Id, es: seq<Event>) returns (sh': Shape)
    requires LeaveSetting(q, sh, l) && Offered(q, s, sh, l) && IsRun(s, es) && Busy(es) && !After(s, es).leaving
    ensures IsRemoval(sh, sh', l) && Clean(After(s, es), sh')
  {
    BusyTail(es);
    OnlyHeirReads(q, s, sh, l, es[0]);
    sh' := RemovedShape(q, sh, l);
    if sh.lo[l] == 0 {
      AnswerDown(q, s, sh, sh', l);
    } else {
      AnswerUp(q, s, sh, sh', l);
    }
    AnsweredRun(q, Do(s, es[0]), sh, sh', l, es[1..]);
  }

  ghost predicate LeaveRound(s: Net, es: seq<Event>) {
    IsRun(s, es) && es != [] && es[0].LeaveStart? && Busy(es[1..])
  }

  /** A leave that has drained gave the range to the heir and took the leaver out of the ring; which of
      NET_CLOSE_CONNECTION and NET_LEAVING was read first makes no difference. */
  lemma LeaveDrained(s: Net, sh: Shape, es: seq<Event>) returns (sh': Shape)
    requires Clean(s, sh) && LeaveRound(s, es) && !After(s, es).leaving
    ensures IsRemoval(sh, sh', es[0].l) && Clean(After(s, es), sh')
  {
    OfferEffect(s, sh, es[0].l);
    sh' := OfferedRun(s, Do(s, es[0]), sh, es[0].l, es[1..]);
  }

  // ---- a join and a leave ----

  lemma {:induction false} RoundIsSerial(s: Net, es: seq<Event>)
    requires IsRun(s, es) && Busy(es)
    ensures SerialRun(s, es)
    decreases |es|
  {
    if es != [] {
      BusyTail(es);
      RoundIsSerial(Do(s, es[0]), es[1..]);
    }
  }

  lemma {:induction false} NoRequestsSameTable(t: Table, es: seq<Event>)
    requires forall i :: 0 <= i < |es| ==> !es[i].ClientSend?
    ensures TableAfter(t, es) == t
    decreases |es|
  {
    if es != [] {
      assert forall i :: 0 <= i < |es[1..]| ==> es[1..][i] == es[i + 1];
      NoRequestsSameTable(t, es[1..]);
    }
  }

  /** A drained round without requests leaves the map as it was. */
  lemma RoundKeepsTable(s: Net, t: Table, es: seq<Event>)
    requires SerialInv(s, t, None) && Quiescent(s) && IsRun(s, es)
    requires es != [] && !es[0].ClientSend? && Busy(es[1..])
    requires Quiescent(After(s, es)) && !After(s, es).leaving
    ensures SerialInv(After(s, es), t, None) && Agrees(After(s, es), t)
  {
    hide SerialInv, Agrees, Quiescent;
    RoundIsSerial(Do(s, es[0]), es[1..]);
    var asked := SerialRunMap(s, t, None, es);
    forall i | 0 <= i < |es| ensures !es[i].ClientSend? {
      assert i > 0 ==> es[i] == es[1..][i - 1];
    }
    NoRequestsSameTable(t, es);
    SerialEnd(After(s, es), t, asked);
  }

  /** The same node in the ring: range, links and entries. */
  ghost predicate SameNode(n: Node, n': Node) {
    && n'.mode == n.mode && n'.lo == n.lo && n'.hi == n.hi && n'.succ == n.succ && n'.pred == n.pred
    && (n.succ.Some? ==> n'.succAddr == n.succAddr)
    && n'.store.vals == n.store.vals && (forall k :: k in n'.store.keys <==> k in n.store.keys)
  }

  lemma SameShapeSameNodes(s: Net, s': Net, sh: Shape, t: Table)
    requires Clean(s, sh) && Clean(s', sh) && Agrees(s, t) && Agrees(s', t)
    ensures s'.nodes.Keys == s.nodes.Keys
    ensures forall b :: b in s.nodes ==> SameNode(s.nodes[b], s'.nodes[b])
  {
    forall b | b in s.nodes ensures b in s'.nodes && SameNode(s.nodes[b], s'.nodes[b]) {
      assert Member(sh, b) && CleanNode(s, sh, b) && CleanNode(s', sh, b);
      assert s.nodes[b].store.vals == Restrict(t, sh.lo[b], sh.hi[b]);
      assert s'.nodes[b].store.vals == Restrict(t, sh.lo[b], sh.hi[b]);
    }
  }

  lemma RemovalUnique(sh: Shape, sh1: Shape, sh2: Shape, l: Id)
    requires Linked(sh) && IsRemoval(sh, sh1, l) && IsRemoval(sh, sh2, l)
    ensures sh1 == sh2
  {
    var i: nat :| i < |sh.order| && sh.order[i] == l && Removed(sh.order, sh1.order, i);
    var k: nat :| k < |sh.order| && sh.order[k] == l && Removed(sh.order, sh2.order, k);
    assert i == k;
    forall x | 0 <= x < |sh1.order| ensures sh1.order[x] == sh2.order[x] {
      assert sh1.order[x] == sh.order[if x < i then x else x + 1];
    }
  }

  lemma SameEnds(s: Net, t: Table, es1: seq<Event>, es2: seq<Event>)
    requires SerialInv(s, t, None) && Quiescent(s) && !s.leaving
    requires LeaveRound(s, es1) && Quiescent(After(s, es1)) && !After(s, es1).leaving
    requires LeaveRound(s, es2) && Quiescent(After(s, es2)) && !After(s, es2).leaving
    requires es1[0].l == es2[0].l
    ensures var s1, s2 := After(s, es1), After(s, es2);
            s2.nodes.Keys == s1.nodes.Keys && forall b :: b in s1.nodes ==> SameNode(s1.nodes[b], s2.nodes[b])
  {
    hide Tiles, Do, Linked, DataInv, Quiescent, Tail, AnsweredSetting;
    var sh := QuietNormal(s);
    var sh1 := LeaveDrained(s, sh, es1);
    var sh2 := LeaveDrained(s, sh, es2);
    RemovalUnique(sh, sh1, sh2, es1[0].l);
    RoundKeepsTable(s, t, es1);
    RoundKeepsTable(s, t, es2);
    SameShapeSameNodes(After(s, es1), After(s, es2), sh1, t);
  }

  /** The order in which the leaver's neighbours read NET_CLOSE_CONNECTION and NET_LEAVING, and in which
      everything else of a leave happens, does not matter: after any serial run that has drained, all
      drained ends of the same leave have the same nodes. */
  lemma LeaveOrderIrrelevant(id: Id, es: seq<Event>, es1: seq<Event>, es2: seq<Event>)
    requires id != 0 && SerialRun(Initial(id), es)
    requires var s := After(Initial(id), es);
             && Quiescent(s) && !s.leaving
             && LeaveRound(s, es1) && Quiescent(After(s, es1)) && !After(s, es1).leaving
             && LeaveRound(s, es2) && Quiescent(After(s, es2)) && !After(s, es2).leaving
             && es1[0].l == es2[0].l
    ensures var s := After(Initial(id), es); var s1, s2 := After(s, es1), After(s, es2);
            s2.nodes.Keys == s1.nodes.Keys && forall b :: b in s1.nodes ==> SameNode(s1.nodes[b], s2.nodes[b])
  {
    var t := SerialState(id, es);
    SameEnds(After(Initial(id), es), t, es1, es2);
  }

  /** A drained serial run ends with the entries of some map. */
  lemma SerialState(id: Id, es: seq<Event>) returns (t: Table)
    requires id != 0 && SerialRun(Initial(id), es)
    requires Quiescent(After(Initial(id), es)) && !After(Initial(id), es).leaving
    ensures t == TableAfter(map[], es) && SerialInv(After(Initial(id), es), t, None)
  {
    hide SerialInv, Quiescent;
    InitialSerial(id);
    var asked := SerialRunMap(Initial(id), map[], None, es);
    t := TableAfter(map[], es);
    SerialEnd(After(Initial(id), es), t, asked);
  }

  lemma OneMember(s: Net, sh: Shape) returns (b: Id)
    requires Clean(s, sh) && |sh.order| == 1
    ensures s.nodes.Keys == {b} && var n := s.nodes[b]; n.lo == 0 && n.hi == LAST && n.succ == n.pred == None
  {
    hide Tiles, StoreOk;
    b := sh.order[0];
    assert Member(sh, b) && CleanNode(s, sh, b);
    AloneIff(sh, b);
    forall c | c in s.nodes ensures c == b {
      assert Member(sh, c);
      var i := IndexOf(sh, c);
    }
  }

  /** Two nodes shrinking to one: the last node has the whole range and no links. */
  lemma LastNodeAlone(s: Net, sh: Shape, es: seq<Event>) returns (b: Id)
    requires Clean(s, sh) && |s.nodes| == 2 && LeaveRound(s, es) && !After(s, es).leaving
    ensures var s' := After(s, es);
            s'.nodes.Keys == {b} && var n := s'.nodes[b]; n.lo == 0 && n.hi == LAST && n.succ == n.pred == None
  {
    hide Do, Enabled, Clean, After;
    RingSize(s, sh);
    var sh' := LeaveDrained(s, sh, es);
    b := OneMember(After(s, es), sh');
  }

  lemma JoinUndone(s: Net, t: Table, es1: seq<Event>, es2: seq<Event>)
    requires SerialInv(s, t, None) && Quiescent(s) && !s.leaving
    requires JoinRound(s, es1) && Quiescent(After(s, es1)) && !After(s, es1).leaving
    requires LeaveRound(After(s, es1), es2) && es2[0].l == es1[0].j
    requires Quiescent(After(After(s, es1), es2)) && !After(After(s, es1), es2).leaving
    ensures var s2 := After(After(s, es1), es2);
            s2.nodes.Keys == s.nodes.Keys && forall b :: b in s.nodes ==> SameNode(s.nodes[b], s2.nodes[b])
  {
    hide Clean, JoinResult, Linked, IsInsertion, Do, Tail, AnsweredSetting, AskingSome, Offered;
    var j := es1[0].j;
    var sh := QuietNormal(s);
    CoherentAgrees(s, sh, t);
    var sh1, i := JoinDrained(s, sh, es1);
    RoundKeepsTable(s, t, es1);
    var s1 := After(s, es1);
    var sh2 := LeaveDrained(s1, sh1, es2);
    RoundKeepsTable(s1, t, es2);
    ShapeRestored(sh, sh1, sh2, Do(s, es1[0]).nodes, j, i);
    SameShapeSameNodes(s, After(s1, es2), sh, t);
  }

  /** Join and leave undo each other: when a node joins after any serial run that has drained and, once
      that has drained, is the next to leave, then once that has drained too every node has the range, the
      links, the successor address and the entries it had before. */
  lemma JoinThenLeave(id: Id, es: seq<Event>, es1: seq<Event>, es2: seq<Event>)
    requires id != 0 && SerialRun(Initial(id), es)
    requires var s := After(Initial(id), es);
             && Quiescent(s) && !s.leaving
             && JoinRound(s, es1) && Quiescent(After(s, es1)) && !After(s, es1).leaving
             && LeaveRound(After(s, es1), es2) && es2[0].l == es1[0].j
             && Quiescent(After(After(s, es1), es2)) && !After(After(s, es1), es2).leaving
    ensures var s := After(Initial(id), es); var s2 := After(After(s, es1), es2);
            && s2.nodes.Keys == s.nodes.Keys && (forall b :: b in s.nodes ==> SameNode(s.nodes[b], s2.nodes[b]))
            && forall b :: b in s.nodes ==>
                 var n, n' := s.nodes[b], s2.nodes[b];
                 n'.lo == n.lo && n'.hi == n.hi && n'.succ == n.succ && n'.pred == n.pred
                 && n'.store.vals == n.store.vals
  {
    var t := SerialState(id, es);
    JoinUndone(After(Initial(id), es), t, es1, es2);
  }

  lemma ShapeRestored(sh: Shape, sh1: Shape, sh2: Shape, nodes: map<Id, Node>, j: Id, i: nat)
    requires ShapeOk(sh) && JoinResult(sh, sh1, nodes, j, i) && IsRemoval(sh1, sh2, j)
    ensures sh2 == sh
  {
    var w :| Winner(sh, nodes, i, w) && IsInsertion(sh, sh1, w, j);
    JoinThenLeaveRestores(sh, sh1, sh2, w, j);
  }
}
