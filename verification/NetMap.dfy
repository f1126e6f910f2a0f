/** The ring is a map: in a run in which every client request and every membership change drains before
    the next starts, the nodes together hold, and answer from, one map. */
module NetMap {
  import opened Base
  import opened Hash
  import opened Ranges
  import opened StoreSpec
  import opened NodeSpec
  import opened Network
  import opened Ring
  import opened NetSteps
  import opened NetData
  import opened NetLeave
  import opened NetTheorems
  import opened NetTokens
  import opened NetRuns
  import opened NetSingle

  type Table = map<Ssn, Value>

  // ---- the map a client has in mind ----

  function Apply(t: Table, m: Msg): Table {
    match m
    case Insert(k, v) => t[k := v]
    case Remove(k) => t - {k}
    case _ => t
  }

  function TableStep(t: Table, e: Event): Table {
    if e.ClientSend? then Apply(t, e.m) else t
  }

  /** The map after the requests of a run. */
  function TableAfter(t: Table, es: seq<Event>): Table
    decreases |es|
  {
    if es == [] then t else TableAfter(TableStep(t, es[0]), es[1..])
  }

  /** What a lookup should be answered: the value, or nothing. */
  function AnswerTo(t: Table, m: Msg): seq<Reply> {
    if m.Lookup? && m.k in t then [Reply(m.client, m.k, t[m.k])] else []
  }

  function AnswerStep(t: Table, e: Event): seq<Reply> {
    if e.ClientSend? then AnswerTo(t, e.m) else []
  }

  /** The answers the clients of a run should get, in order. */
  function Answers(t: Table, es: seq<Event>): seq<Reply>
    decreases |es|
  {
    if es == [] then [] else AnswerStep(t, es[0]) + Answers(TableStep(t, es[0]), es[1..])
  }

  // ---- what the network answers ----

  ghost function ReplyIn(s: Net, e: Event): seq<Reply>
    requires Enabled(s, e)
  {
    if !Delivers(e) then []
    else
      var d := DeliveryOf(s, e);
      if s.nodes[d.b].mode == LeaveWait then []
      else
        OneReply(React(s, d.b, d.m).1)
  }

  function OneReply(out: Out): seq<Reply> {
    if out.reply.Some? then [out.reply.value] else []
  }

  ghost function Replies(s: Net, es: seq<Event>): seq<Reply>
    requires IsRun(s, es)
    decreases |es|
  {
    if es == [] then [] else ReplyIn(s, es[0]) + Replies(Do(s, es[0]), es[1..])
  }

  /** A run in which clients, joiners and leavers start only when the network is quiet. */
  ghost predicate SerialRun(s: Net, es: seq<Event>)
    ensures SerialRun(s, es) ==> IsRun(s, es)
    decreases |es|
  {
    es == [] ||
    (Enabled(s, es[0]) && (External(es[0]) ==> Quiescent(s)) && SerialRun(Do(s, es[0]), es[1..]))
  }

  /** Every node holds exactly the entries of the map that hash into its range. */
  ghost predicate Agrees(s: Net, t: Table) {
    forall b {:trigger s.nodes[b]} :: b in s.nodes ==>
      s.nodes[b].store.vals == Restrict(t, s.nodes[b].lo, s.nodes[b].hi)
  }

  // ---- entries on the move ----

  /** Every copy, stored or in flight, is an entry of the map, and every entry has a copy. */
  ghost predicate Coherent(s: Net, t: Table) {
    && (forall k, v {:trigger Copy(s, k, v)} :: Copy(s, k, v) ==> k in t && t[k] == v)
    && (forall k {:trigger Present(s, k)} :: k in t ==> Present(s, k))
  }

  /** No request but transfers is in flight. */
  ghost predicate NoAsk(s: Net) {
    forall m {:trigger Carried(s, m)} :: Carried(s, m) ==> !m.Remove? && !m.Lookup?
  }

  lemma StillCarries(s: Net, m: Msg)
    requires Still(s)
    ensures !Carried(s, m)
  {
  }

  lemma CoherentAgrees(s: Net, sh: Shape, t: Table)
    requires Clean(s, sh) && Coherent(s, t)
    ensures Agrees(s, t)
  {
    forall b | b in s.nodes ensures s.nodes[b].store.vals == Restrict(t, s.nodes[b].lo, s.nodes[b].hi) {
      var n := s.nodes[b];
      assert Member(sh, b) && CleanNode(s, sh, b);
      forall k | k in n.store.vals ensures k in t && t[k] == n.store.vals[k] && InRange(HashOf(k), n.lo, n.hi) {
        assert HoldsAt(n, k, n.store.vals[k]);
        assert Copy(s, k, n.store.vals[k]);
      }
      forall k | k in t && InRange(HashOf(k), n.lo, n.hi) ensures k in n.store.vals {
        EntryHome(s, sh, t, b, k);
      }
    }
  }

  lemma EntryHome(s: Net, sh: Shape, t: Table, b: Id, k: Ssn)
    requires Clean(s, sh) && Coherent(s, t) && Member(sh, b) && k in t && b in s.nodes
    requires InRange(HashOf(k), s.nodes[b].lo, s.nodes[b].hi)
    ensures k in s.nodes[b].store.vals
  {
    assert Present(s, k);
    var v :| Copy(s, k, v);
    StillCarries(s, Insert(k, v));
    var a :| a in s.nodes && HoldsAt(s.nodes[a], k, v);
    assert Member(sh, a) && CleanNode(s, sh, a) && CleanNode(s, sh, b);
    OwnersAgree(sh, HashOf(k), a, b);
  }

  lemma AgreesCoherent(s: Net, sh: Shape, t: Table)
    requires Clean(s, sh) && Agrees(s, t)
    ensures Coherent(s, t) && NoAsk(s)
  {
    forall m ensures !Carried(s, m) {
      StillCarries(s, m);
    }
    forall k | k in t ensures Present(s, k) {
      var b := OwnerOf(sh, HashOf(k));
      assert CleanNode(s, sh, b);
      assert s.nodes[b].store.vals == Restrict(t, s.nodes[b].lo, s.nodes[b].hi);
      assert HoldsAt(s.nodes[b], k, t[k]);
      assert Copy(s, k, t[k]);
    }
    forall k, v {:trigger Copy(s, k, v)} | Copy(s, k, v) ensures k in t && t[k] == v {
      var b :| b in s.nodes && HoldsAt(s.nodes[b], k, v);
    }
  }

  // ---- a request on its way ----

  /** Request m travels in a clean ring and is about to be read by b; the nodes agree with t. */
  ghost predicate OnTheWay(s: Net, sh: Shape, m: Msg, b: Id) {
    InOrder(s, sh, {}) && OnlyMessage(s, m, b) && IsRequest(m) && Member(sh, b)
  }

  ghost predicate Asking(s: Net, sh: Shape, m: Msg, b: Id, t: Table) {
    OnTheWay(s, sh, m, b) && Agrees(s, t)
  }

  lemma NotTheOwner(s: Net, sh: Shape, h: byte, a: Id, b: Id)
    requires InOrder(s, sh, {}) && Member(sh, b) && b in s.nodes && a in s.nodes && a != b
    requires InRange(h, s.nodes[b].lo, s.nodes[b].hi)
    ensures !InRange(h, s.nodes[a].lo, s.nodes[a].hi)
  {
    assert Member(sh, a) && CleanNode(s, sh, a) && CleanNode(s, sh, b);
    if InRange(h, s.nodes[a].lo, s.nodes[a].hi) {
      OwnersAgree(sh, h, a, b);
    }
  }

  lemma OthersRestrict(t: Table, m: Msg, lo: byte, hi: byte)
    requires IsRequest(m) && !InRange(HashOf(m.k), lo, hi)
    ensures Restrict(Apply(t, m), lo, hi) == Restrict(t, lo, hi)
  {
  }

  lemma HandledVals(n: Node, m: Msg)
    requires IsRequest(m) && Owns(n, m.k) && StoreOk(n.store)
    ensures var n' := HandleValue(n, m).0;
            n' == n.(store := n'.store) && n'.store.vals == Apply(n.store.vals, m) && StoreOk(n'.store)
  {
    StoreOpsKeepAgreement(n.store, m.k, if m.Insert? then m.v else Value([], []), 0, 0);
    if m.Remove? && m.k !in n.store.vals {
      assert n.store.vals - {m.k} == n.store.vals;
    }
  }

  /** The owner handles the request: the nodes agree with the map the client has in mind. */
  lemma OwnerAgrees(s: Net, s': Net, sh: Shape, m: Msg, b: Id, t: Table)
    requires InOrder(s, sh, {}) && IsRequest(m) && Member(sh, b) && b in s.nodes && Agrees(s, t)
    requires Owns(s.nodes[b], m.k) && s'.nodes == s.nodes[b := HandleValue(s.nodes[b], m).0]
    ensures Agrees(s', Apply(t, m))
  {
    assert CleanNode(s, sh, b);
    HandledVals(s.nodes[b], m);
    forall a | a in s'.nodes ensures s'.nodes[a].store.vals == Restrict(Apply(t, m), s'.nodes[a].lo, s'.nodes[a].hi) {
      var n := s.nodes[a];
      assert n.store.vals == Restrict(t, n.lo, n.hi);
      if a != b {
        NotTheOwner(s, sh, HashOf(m.k), a, b);
        OthersRestrict(t, m, n.lo, n.hi);
      } else {
        OwnerRestrict(t, m, n.lo, n.hi);
      }
    }
  }

  lemma OwnerRestrict(t: Table, m: Msg, lo: byte, hi: byte)
    requires IsRequest(m) && InRange(HashOf(m.k), lo, hi)
    ensures Restrict(Apply(t, m), lo, hi) == Apply(Restrict(t, lo, hi), m)
  {
  }

  lemma WayDelivers(s: Net, sh: Shape, m: Msg, b: Id, e: Event) returns (rest: Net)
    requires OnTheWay(s, sh, m, b) && Enabled(s, e) && (External(e) ==> Quiescent(s))
    ensures Delivers(e) && rest.nodes == s.nodes && InOrder(rest, sh, {}) && Still(rest)
    ensures b in s.nodes && Do(s, e) == Receive(rest, b, m) && ReplyIn(s, e) == OneReply(React(s, b, m).1)
  {
    OnlyReader(s, sh, {}, m, b, e);
    RestIsStill(s, sh, {}, m, b, e);
    rest := DeliveryOf(s, e).rest;
    assert CleanNode(s, sh, b);
  }

  lemma WayOwner(s: Net, sh: Shape, m: Msg, b: Id)
    requires InOrder(s, sh, {}) && Still(s) && IsRequest(m) && Member(sh, b) && b in s.nodes
    requires Owns(s.nodes[b], m.k)
    ensures Clean(Receive(s, b, m), sh)
    ensures Receive(s, b, m).nodes == s.nodes[b := HandleValue(s.nodes[b], m).0]
    ensures React(s, b, m).1 == HandleValue(s.nodes[b], m).1
  {
    StillIsNormal(s, sh, {});
    assert CleanNode(s, sh, b);
    ValueOk(s, sh, map[], b, m);
    HandledIsClean(s, sh, m, b);
  }

  lemma ForwardReaction(s: Net, sh: Shape, m: Msg, b: Id)
    requires ShapeOk(sh) && Member(sh, b) && CleanNode(s, sh, b) && IsRequest(m) && !Owns(s.nodes[b], m.k)
    ensures OneReply(React(s, b, m).1) == [] && sh.nxt[b] != b
  {
    AloneIff(sh, b);
    ForwardedValue(s.nodes[b], m);
    ValueReaction(s, b, m);
  }

  lemma WayForward(s: Net, sh: Shape, m: Msg, b: Id)
    requires InOrder(s, sh, {}) && Still(s) && IsRequest(m) && Member(sh, b) && b in s.nodes
    requires !Owns(s.nodes[b], m.k)
    ensures OnTheWay(Receive(s, b, m), sh, m, sh.nxt[b]) && Receive(s, b, m).nodes == s.nodes
    ensures OneReply(React(s, b, m).1) == []
  {
    hide Receive, Handle, HandleValue, OnlyMessage, Still;
    StillIsNormal(s, sh, {});
    assert CleanNode(s, sh, b);
    ForwardReaction(s, sh, m, b);
    ValueOk(s, sh, map[], b, m);
    ForwardedIsOnly(s, sh, {}, m, b);
    assert Member(sh, sh.nxt[b]);
  }

  /** One step of a request: it is forwarded to the ring successor, or handled. */
  lemma WayStep(s: Net, sh: Shape, m: Msg, b: Id, e: Event)
    requires OnTheWay(s, sh, m, b) && Enabled(s, e) && (External(e) ==> Quiescent(s))
    ensures b in s.nodes && !External(e) && Member(sh, b)
    ensures if Owns(s.nodes[b], m.k) then
              && Clean(Do(s, e), sh) && Do(s, e).nodes == s.nodes[b := HandleValue(s.nodes[b], m).0]
              && ReplyIn(s, e) == OneReply(HandleValue(s.nodes[b], m).1)
            else
              OnTheWay(Do(s, e), sh, m, sh.nxt[b]) && Do(s, e).nodes == s.nodes && ReplyIn(s, e) == []
  {
    hide Linked, Receive, CleanNode, Handle, Do, Tiles, HandleValue, Quiescent;
    var rest := WayDelivers(s, sh, m, b, e);
    if Owns(s.nodes[b], m.k) {
      WayOwner(rest, sh, m, b);
    } else {
      WayForward(rest, sh, m, b);
    }
  }

  /** ... and answered, from the map. */
  lemma AskingStep(s: Net, sh: Shape, m: Msg, b: Id, t: Table, e: Event)
    requires Asking(s, sh, m, b, t) && Enabled(s, e) && (External(e) ==> Quiescent(s))
    ensures b in s.nodes && !External(e) && Member(sh, b)
    ensures if Owns(s.nodes[b], m.k) then
              Clean(Do(s, e), sh) && Agrees(Do(s, e), Apply(t, m)) && ReplyIn(s, e) == AnswerTo(t, m)
            else
              Asking(Do(s, e), sh, m, sh.nxt[b], t) && ReplyIn(s, e) == []
  {
    WayStep(s, sh, m, b, e);
    if Owns(s.nodes[b], m.k) {
      OwnerAgrees(s, Do(s, e), sh, m, b, t);
      OwnerReply(s.nodes[b], m, t);
    }
  }

  lemma OwnerReply(n: Node, m: Msg, t: Table)
    requires IsRequest(m) && Owns(n, m.k) && n.store.vals == Restrict(t, n.lo, n.hi)
    ensures AnswerTo(t, m) == OneReply(HandleValue(n, m).1)
  {
  }

  lemma HandledIsClean(s: Net, sh: Shape, m: Msg, b: Id)
    requires InOrder(s, sh, {}) && Still(s) && IsRequest(m) && Member(sh, b) && b in s.nodes && Owns(s.nodes[b], m.k)
    ensures Clean(s.(nodes := s.nodes[b := HandleValue(s.nodes[b], m).0]), sh)
  {
    hide HandleValue, Tiles;
    var s' := s.(nodes := s.nodes[b := HandleValue(s.nodes[b], m).0]);
    var n := s.nodes[b];
    assert CleanNode(s, sh, b);
    HandledVals(n, m);
    forall a ensures Backlog(s', a) == Backlog(s, a) {}
    forall a {:trigger Member(sh, a)} | Member(sh, a) ensures CleanNode(s', sh, a) {
      assert CleanNode(s, sh, a);
    }
    SameStreams(s, s');
  }

  // ---- the invariant of serial runs ----

  /** t is the map after all requests so far; `asked` is the one that is still on its way. */
  ghost predicate SerialInv(s: Net, t: Table, asked: Option<Msg>) {
    Inv(s) && OneTruth(s) && DataInv(s, t, asked)
  }

  ghost predicate DataInv(s: Net, t: Table, asked: Option<Msg>) {
    match asked
    case None => Coherent(s, t) && NoAsk(s)
    case Some(m) => AskingSome(s, m, t)
  }

  ghost predicate AskingSome(s: Net, m: Msg, t: Table) {
    exists sh, b, t0 :: Asking(s, sh, m, b, t0) && t == Apply(t0, m)
  }

  function Pending(t: Table, asked: Option<Msg>): seq<Reply> {
    if asked.Some? then AnswerTo(t, asked.value) else []
  }

  /** Without a lookup in flight nobody is answered. */
  lemma NoReply(s: Net, e: Event)
    requires Enabled(s, e) && NoAsk(s)
    ensures ReplyIn(s, e) == []
  {
    if Delivers(e) {
      DeliveredCarried(s, e);
      var d := DeliveryOf(s, e);
      OnlyLookupsReply(s, d.b, d.m);
    }
  }

  lemma OnlyLookupsReply(s: Net, b: Id, m: Msg)
    requires b in s.nodes
    ensures React(s, b, m).1.reply.Some? ==> m.Lookup?
  {
  }

  lemma QuietNormal(s: Net) returns (sh: Shape)
    requires Inv(s) && Quiescent(s) && !s.leaving
    ensures Clean(s, sh)
  {
    var loc;
    sh, loc := NormalUnlessLeaving(s);
    QuietIsClean(s, sh, loc);
  }

  /** A client sends a request into a quiet network. */
  lemma AskClean(s: Net, sh: Shape, e: Event)
    requires Clean(s, sh) && Enabled(s, e) && e.ClientSend?
    ensures OnTheWay(Do(s, e), sh, e.m, e.dest) && Do(s, e).nodes == s.nodes
  {
    var s' := Do(s, e);
    forall a ensures Backlog(s', a) == Backlog(s, a) {}
    forall a {:trigger Member(sh, a)} | Member(sh, a) ensures CleanNode(s', sh, a) {
      assert CleanNode(s, sh, a);
    }
    SameStreams(s, s');
    assert s'.udp == multiset{Packet(e.dest, e.m)};
  }

  lemma AskStep(s: Net, t: Table, e: Event)
    requires Inv(s) && Coherent(s, t) && Enabled(s, e) && Quiescent(s) && e.ClientSend?
    ensures AskingSome(Do(s, e), e.m, Apply(t, e.m))
  {
    var sh := QuietNormal(s);
    CoherentAgrees(s, sh, t);
    AskClean(s, sh, e);
    assert Asking(Do(s, e), sh, e.m, e.dest, t);
  }

  /** Any other step while no request is on its way only moves entries. */
  lemma QuietStep(s: Net, t: Table, e: Event)
    requires Inv(s) && Coherent(s, t) && NoAsk(s) && Enabled(s, e) && !e.ClientSend?
    ensures Coherent(Do(s, e), t) && NoAsk(Do(s, e))
  {
    hide Inv, Enabled, Do, Apply;
    var s' := Do(s, e);
    forall k, v {:trigger Copy(s', k, v)} | Copy(s', k, v) ensures k in t && t[k] == v {
      InvData(s, e, k, v, Remove(k));
    }
    forall k {:trigger Present(s', k)} | k in t ensures Present(s', k) {
      assert Present(s, k);
      var v :| Copy(s, k, v);
      InvData(s, e, k, v, Remove(k));
      if Delivers(e) {
        DeliveredCarried(s, e);
      }
    }
    forall m {:trigger Carried(s', m)} | Carried(s', m) ensures !m.Remove? && !m.Lookup? {
      if m.Remove? || m.Lookup? {
        InvData(s, e, m.k, Value([], []), m);
      }
    }
  }

  /** Replies r so far and answers p' still due make up for the answers p that were due and those of now. */
  ghost predicate Tally(r: seq<Reply>, p': seq<Reply>, p: seq<Reply>, now: seq<Reply>) {
    r + p' == p + now
  }

  lemma TallyCases(x: seq<Reply>)
    ensures Tally(x, [], x, []) && Tally([], x, x, []) && Tally([], x, [], x) && Tally([], [], [], [])
  {
    assert [] + x == x == x + [];
  }

  lemma TallyEnd(r: seq<Reply>, now: seq<Reply>)
    requires Tally(r, [], [], now)
    ensures r == now
  {
    assert r + [] == r && [] + now == now;
  }

  lemma StillAsking(s: Net, sh: Shape, m: Msg, b: Id, t0: Table)
    requires Asking(s, sh, m, b, t0)
    ensures DataInv(s, Apply(t0, m), Some(m))
  {
  }

  lemma AskedDone(s: Net, sh: Shape, t: Table)
    requires Clean(s, sh) && Agrees(s, t)
    ensures DataInv(s, t, None)
  {
    AgreesCoherent(s, sh, t);
  }

  lemma AskedHere(s: Net, sh: Shape, m: Msg, b: Id, t0: Table, e: Event)
    requires Asking(s, sh, m, b, t0) && Enabled(s, e) && (External(e) ==> Quiescent(s))
    requires b in s.nodes && Owns(s.nodes[b], m.k)
    ensures !External(e) && Tally(ReplyIn(s, e), [], AnswerTo(Apply(t0, m), m), [])
    ensures DataInv(Do(s, e), Apply(t0, m), None)
  {
    AskingStep(s, sh, m, b, t0, e);
    AnswerSame(t0, m);
    TallyCases(AnswerTo(t0, m));
    AskedDone(Do(s, e), sh, Apply(t0, m));
  }

  lemma AskedThere(s: Net, sh: Shape, m: Msg, b: Id, t0: Table, e: Event)
    requires Asking(s, sh, m, b, t0) && Enabled(s, e) && (External(e) ==> Quiescent(s))
    requires b in s.nodes && !Owns(s.nodes[b], m.k)
    ensures !External(e) && Tally(ReplyIn(s, e), AnswerTo(Apply(t0, m), m), AnswerTo(Apply(t0, m), m), [])
    ensures DataInv(Do(s, e), Apply(t0, m), Some(m))
  {
    AskingStep(s, sh, m, b, t0, e);
    TallyCases(AnswerTo(Apply(t0, m), m));
    StillAsking(Do(s, e), sh, m, sh.nxt[b], t0);
  }

  lemma AskedStep(s: Net, sh: Shape, m: Msg, b: Id, t0: Table, e: Event) returns (asked': Option<Msg>)
    requires Asking(s, sh, m, b, t0) && Enabled(s, e) && (External(e) ==> Quiescent(s))
    ensures !External(e) && Tally(ReplyIn(s, e), Pending(Apply(t0, m), asked'), AnswerTo(Apply(t0, m), m), [])
    ensures DataInv(Do(s, e), Apply(t0, m), asked')
  {
    hide InOrder, Agrees;
    if Owns(s.nodes[b], m.k) {
      AskedHere(s, sh, m, b, t0, e);
      asked' := None;
    } else {
      AskedThere(s, sh, m, b, t0, e);
      asked' := Some(m);
    }
  }

  lemma TallyChain(r: seq<Reply>, p1: seq<Reply>, p: seq<Reply>, now: seq<Reply>,
                   r': seq<Reply>, p2: seq<Reply>, later: seq<Reply>)
    requires Tally(r, p1, p, now) && Tally(r', p2, p1, later)
    ensures Tally(r + r', p2, p, now + later)
  {
    assert (r + r') + p2 == r + (r' + p2);
    assert r + (p1 + later) == (r + p1) + later;
    assert (p + now) + later == p + (now + later);
  }

  lemma DataInvStep(s: Net, t: Table, asked: Option<Msg>, e: Event) returns (asked': Option<Msg>)
    requires Inv(s) && DataInv(s, t, asked) && Enabled(s, e) && (External(e) ==> Quiescent(s))
    ensures DataInv(Do(s, e), TableStep(t, e), asked')
    ensures Tally(ReplyIn(s, e), Pending(TableStep(t, e), asked'), Pending(t, asked), AnswerStep(t, e))
  {
    hide InOrder, Agrees, Do, Enabled, Handle;
    if asked.Some? {
      var sh, b, t0 :| Asking(s, sh, asked.value, b, t0) && t == Apply(t0, asked.value);
      asked' := AskedStep(s, sh, asked.value, b, t0, e);
    } else {
      NoReply(s, e);
      TallyCases(AnswerStep(t, e));
      if e.ClientSend? {
        AskStep(s, t, e);
        AnswerSame(t, e.m);
        asked' := Some(e.m);
      } else {
        QuietStep(s, t, e);
        asked' := None;
      }
    }
  }

  /** Every step of a serial run: the map and the answers stay those of the specification. */
  lemma SerialStep(s: Net, t: Table, asked: Option<Msg>, e: Event) returns (asked': Option<Msg>)
    requires SerialInv(s, t, asked) && Enabled(s, e) && (External(e) ==> Quiescent(s))
    ensures SerialInv(Do(s, e), TableStep(t, e), asked')
    ensures Tally(ReplyIn(s, e), Pending(TableStep(t, e), asked'), Pending(t, asked), AnswerStep(t, e))
  {
    assert Quiescent(s) ==> AllInRing(s);
    OneTruthStep(s, e);
    InvStep(s, e);
    asked' := DataInvStep(s, t, asked, e);
  }

  lemma AnswerSame(t: Table, m: Msg)
    ensures AnswerTo(Apply(t, m), m) == AnswerTo(t, m)
  {
  }

  lemma {:induction false} SerialRunMap(s: Net, t: Table, asked: Option<Msg>, es: seq<Event>)
    returns (asked': Option<Msg>)
    requires SerialInv(s, t, asked) && SerialRun(s, es)
    ensures SerialInv(After(s, es), TableAfter(t, es), asked')
    ensures Tally(Replies(s, es), Pending(TableAfter(t, es), asked'), Pending(t, asked), Answers(t, es))
    decreases |es|
  {
    if es == [] {
      asked' := asked;
      TallyCases(Pending(t, asked));
    } else {
      var e := es[0];
      var t1 := TableStep(t, e);
      var asked1 := SerialStep(s, t, asked, e);
      asked' := SerialRunMap(Do(s, e), t1, asked1, es[1..]);
      TallyChain(ReplyIn(s, e), Pending(t1, asked1), Pending(t, asked), AnswerStep(t, e),
                 Replies(Do(s, e), es[1..]), Pending(TableAfter(t1, es[1..]), asked'), Answers(t1, es[1..]));
    }
  }

  lemma InitialSerial(id: Id)
    requires id != 0
    ensures SerialInv(Initial(id), map[], None)
  {
    var s := Initial(id);
    var sh := InitialClean(id);
    CleanIsNormal(s, sh);
    forall t: Msg ensures !Carried(s, t) {
      NothingCarried(id, t);
    }
    SettledTruth(s);
    assert Agrees(s, map[]) by {
      forall b | b in s.nodes ensures s.nodes[b].store.vals == Restrict(map[], s.nodes[b].lo, s.nodes[b].hi) {}
    }
    AgreesCoherent(s, sh, map[]);
  }

  /** The ring is a map. Let client requests, joins and leaves happen in any order, each starting when
      the network is quiet. Then whenever the network is quiet again, the answers clients have got are
      exactly those of one map that went through the same inserts, removes and lookups, in the same
      order, a lookup of a key that is not in the map getting none; and every node holds exactly the
      part of the map that hashes into its range. */
  lemma RingIsAMap(id: Id, es: seq<Event>)
    requires id != 0 && SerialRun(Initial(id), es)
    requires var s := After(Initial(id), es); Quiescent(s) && !s.leaving
    ensures Replies(Initial(id), es) == Answers(map[], es)
    ensures Agrees(After(Initial(id), es), TableAfter(map[], es))
  {
    InitialSerial(id);
    SerialRunEnds(Initial(id), es);
  }

  lemma SerialRunEnds(s: Net, es: seq<Event>)
    requires SerialInv(s, map[], None) && SerialRun(s, es)
    requires Quiescent(After(s, es)) && !After(s, es).leaving
    ensures Replies(s, es) == Answers(map[], es)
    ensures Agrees(After(s, es), TableAfter(map[], es))
  {
    var asked := SerialRunMap(s, map[], None, es);
    SerialEnd(After(s, es), TableAfter(map[], es), asked);
    TallyEnd(Replies(s, es), Answers(map[], es));
  }

  lemma SerialEnd(s: Net, t: Table, asked: Option<Msg>)
    requires SerialInv(s, t, asked) && Quiescent(s) && !s.leaving
    ensures asked == None && Agrees(s, t)
  {
    if asked.Some? {
      var sh, b, t0 :| Asking(s, sh, asked.value, b, t0) && t == Apply(t0, asked.value);
      NotQuiescent(s, asked.value, b);
    } else {
      var sh := QuietNormal(s);
      CoherentAgrees(s, sh, t);
    }
  }
}
