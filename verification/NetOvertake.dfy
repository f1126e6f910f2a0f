/** A request that overtakes a transfer of its key: an entry that a client has replaced comes back. */
module NetOvertake {
  import opened Base
  import opened Hash
  import opened Ranges
  import opened StoreSpec
  import opened NodeSpec
  import opened Network
  import opened NetViews
  import opened Ring
  import opened NetInv
  import opened NetSteps
  import opened NetJoin
  import opened NetCore
  import opened NetData
  import opened NetLeave
  import opened NetTheorems
  import opened NetMap
  import opened NetDrainJoin
  import opened NetAsk
  import opened NetAnswers

  // ---- pieces of runs ----

  /** A run of requests one at a time, from one state to another. */
  ghost predicate Goes(s: Net, ask: Option<Msg>, es: seq<Event>, s': Net, ask': Option<Msg>) {
    OneAtATime(s, ask, es) && After(s, es) == s' && AskAfter(s, ask, es) == ask'
  }

  lemma {:induction false} GoesOn(s: Net, ask: Option<Msg>, es1: seq<Event>, s1: Net, ask1: Option<Msg>,
                                  es2: seq<Event>, s2: Net, ask2: Option<Msg>)
    requires Goes(s, ask, es1, s1, ask1) && Goes(s1, ask1, es2, s2, ask2)
    ensures Goes(s, ask, es1 + es2, s2, ask2)
    decreases |es1|
  {
    hide Enabled, Do, SplitGuard, Track;
    if es1 == [] {
      assert es1 + es2 == es2;
    } else {
      assert (es1 + es2)[1..] == es1[1..] + es2;
      GoesOn(Do(s, es1[0]), Track(s, ask, es1[0]), es1[1..], s1, ask1, es2, s2, ask2);
    }
  }

  lemma GoesOne(s: Net, ask: Option<Msg>, e: Event)
    requires Enabled(s, e) && SplitGuard(s, e) && (e.ClientSend? ==> ask.None?)
    ensures Goes(s, ask, [e], Do(s, e), Track(s, ask, e))
  {
    hide Enabled, Do, SplitGuard, Track;
    assert [e][0] == e && [e][1..] == [];
    assert Goes(Do(s, e), Track(s, ask, e), [], Do(s, e), Track(s, ask, e));
  }

  /** A client sends a request to its owner, which handles it. */
  lemma AskHandled(s: Net, sh: Shape, loc: map<Id, Loc>, b: Id, m: Msg)
    requires Normal(s, sh, loc) && s.udp == multiset{} && b in s.nodes && s.nodes[b].mode == Running
    requires IsRequest(m) && Owns(s.nodes[b], m.k) && !Carried(s, m)
    ensures var s' := s.(nodes := s.nodes[b := HandleValue(s.nodes[b], m).0]);
            && Goes(s, None, [ClientSend(b, m)] + [RecvUdp(Packet(b, m))], s', None) && Normal(s', sh, loc)
  {
    hide Locals, Streams, Tokens, Receive, HandleValue, Owns, Carried;
    var e1, e2 := ClientSend(b, m), RecvUdp(Packet(b, m));
    var s1 := Do(s, e1);
    var s' := s.(nodes := s.nodes[b := HandleValue(s.nodes[b], m).0]);
    assert s1.udp - multiset{Packet(b, m)} == s.udp;
    ValueOk(s, sh, loc, b, m);
    assert DeliveryOf(s1, e2) == Delivery(b, m, s);
    GoesOne(s, None, e1);
    GoesOne(s1, Some(m), e2);
    GoesOn(s, None, [e1], s1, Some(m), [e2], s', None);
  }

  // ---- a joins with j ----

  /** Node a is the whole ring. */
  ghost predicate Alone(s: Net, a: Id) {
    && s.nodes.Keys == {a} && a != 0 && s.udp == multiset{} && s.backlog == map[]
    && (forall x: Id, y: Id {:trigger Down(s, x, y)} :: Down(s, x, y) == [])
    && (forall x: Id, y: Id {:trigger Up(s, x, y)} :: Up(s, x, y) == [])
    && var n := s.nodes[a];
       n.mode == Running && n.lo == 0 && n.hi == LAST && n.succ == None && n.pred == None
  }

  const NEW: Node := Node(Joining, 0, 0, EMPTY_STORE, None, 0, None)

  /** The network with j on its way in, its token in a's hand. */
  ghost function Arrived(s: Net, j: Id): Net {
    s.(nodes := s.nodes[j := NEW], backlog := s.backlog[j := []])
  }

  ghost function Token(a: Id, j: Id): Packet {
    Packet(a, Join(j, 0, 0))
  }

  lemma JoinSent(s: Net, sh: Shape, loc: map<Id, Loc>, a: Id, j: Id)
    requires Normal(s, sh, loc) && Alone(s, a) && j != a && j != 0
    ensures var s1 := Arrived(s, j).(udp := multiset{Token(a, j)});
            Goes(s, None, [JoinStart(j, a)], s1, None) && Normal(s1, sh, loc[j := InBag])
  {
    hide Locals, Streams, Tokens;
    NormalNotLeaving(s, sh, loc);
    JoinStartOk(s, sh, loc, JoinStart(j, a));
    GoesOne(s, None, JoinStart(j, a));
  }

  lemma TokenAnswered(s: Net, sh: Shape, loc: map<Id, Loc>, a: Id, j: Id)
    returns (s': Net, sh': Shape, loc': map<Id, Loc>)
    requires Alone(s, a) && j != a && j != 0
    requires Normal(Arrived(s, j).(udp := multiset{Token(a, j)}), sh, loc)
    ensures Goes(Arrived(s, j).(udp := multiset{Token(a, j)}), None, [RecvUdp(Token(a, j))], s', None)
    ensures Normal(s', sh', loc') && AfterSplit(Arrived(s, j), s', a, j, a)
  {
    hide Normal, Receive, AfterSplit, React;
    var r, m, e := Arrived(s, j), Join(j, 0, 0), RecvUdp(Token(a, j));
    var s1 := r.(udp := multiset{Token(a, j)});
    assert s1.udp - multiset{Token(a, j)} == multiset{};
    loc' := LocWithout(loc, m);
    PopUdpOk(s1, sh, loc, Token(a, j));
    AloneNext(r, sh, loc', a);
    SplitEffect(r, sh, loc', a, m);
    sh' := SplitOk(r, sh, loc', a, m);
    s' := Receive(r, a, m);
    GoesOne(s1, None, e);
  }

  lemma JoinAnswered(s: Net, sh: Shape, loc: map<Id, Loc>, a: Id, j: Id)
    returns (s': Net, sh': Shape, loc': map<Id, Loc>)
    requires Normal(s, sh, loc) && Alone(s, a) && j != a && j != 0
    ensures Goes(s, None, [JoinStart(j, a)] + [RecvUdp(Token(a, j))], s', None)
    ensures Normal(s', sh', loc') && AfterSplit(Arrived(s, j), s', a, j, a)
  {
    hide Normal, Alone, AfterSplit, Goes;
    var s1 := Arrived(s, j).(udp := multiset{Token(a, j)});
    JoinSent(s, sh, loc, a, j);
    s', sh', loc' := TokenAnswered(s, sh, loc[j := InBag], a, j);
    GoesOn(s, None, [JoinStart(j, a)], s1, None, [RecvUdp(Token(a, j))], s', None);
  }

  lemma AloneNext(s: Net, sh: Shape, loc: map<Id, Loc>, a: Id)
    requires Normal(s, sh, loc) && a in s.nodes && s.nodes[a].mode == Running && s.nodes[a].succ == None
    ensures Member(sh, a) && sh.nxt[a] == a
  {
    hide Normal;
    MemberFields(s, sh, loc, a);
  }

  /** The joiner accepts the connection. */
  lemma JoinAccepted(s: Net, sh: Shape, loc: map<Id, Loc>, j: Id)
    requires Normal(s, sh, loc) && j in s.nodes && s.nodes[j].mode == Joining && Backlog(s, j) != []
    ensures Enabled(s, Accept(j)) && Goes(s, None, [Accept(j)], Do(s, Accept(j)), None)
    ensures Normal(Do(s, Accept(j)), sh, loc)
  {
    hide Normal, Do;
    AcceptOk(s, sh, loc, Accept(j));
    GoesOne(s, None, Accept(j));
  }

  /** It reads its answer, and a transfer is left on its stream. */
  lemma AnswerRead(s: Net, sh: Shape, loc: map<Id, Loc>, a: Id, j: Id)
    requires Normal(s, sh, loc) && j in s.nodes && s.nodes[j].mode == JoinWait && s.nodes[j].pred == Some(a)
    requires Down(s, a, j) != []
    ensures var e := RecvPred(j);
            && Enabled(s, e) && Goes(s, None, [e], Do(s, e), None) && Normal(Do(s, e), sh, loc)
            && Down(s, a, j)[0].JoinResponse? && AfterAnswer(s, Do(s, e), j, a, Down(s, a, j)[0].next, Down(s, a, j)[0])
  {
    hide Locals, Streams, Tokens, Do, AfterAnswer, Receive;
    IsMember(s, sh, j);
    AnswerEffect(s, sh, RecvPred(j));
    AnswerOk(s, sh, loc, RecvPred(j));
    AnswerNamesNext(s, Do(s, RecvPred(j)), j, a, sh.nxt[j], Down(s, a, j)[0]);
    GoesOne(s, None, RecvPred(j));
  }

  lemma AnswerNamesNext(s: Net, s': Net, b: Id, x: Id, c: Id, m: Msg)
    requires AfterAnswer(s, s', b, x, c, m)
    ensures m.JoinResponse? && m.next == c
  {
  }

  // ---- the state in which j can be asked too early ----

  /** Node j is in its main loop with table st, and ds is in front of it; a waits for j to be accepted. */
  ghost predicate Late(s: Net, a: Id, j: Id, st: Store, ds: seq<Msg>) {
    && a != j && s.nodes.Keys == {a, j} && s.udp == multiset{}
    && (forall x: Id, y: Id {:trigger Down(s, x, y)} :: Down(s, x, y) == if (x, y) == (a, j) then ds else [])
    && (forall x: Id, y: Id {:trigger Up(s, x, y)} :: Up(s, x, y) == [])
    && (forall x {:trigger Backlog(s, x)} :: Backlog(s, x) == if x == a then [j] else [])
    && s.nodes[a].mode == AwaitPred
    && var n := s.nodes[j];
       n.mode == Running && n.lo == 128 && n.hi == LAST && n.store == st && n.pred == Some(a)
  }

  lemma FirstShipment(n: Node, a: Id, k: Ssn, v: Value)
    requires n.lo == 0 && n.hi == LAST && n.store == Store([k], map[k := v]) && HashOf(k) > 127
    ensures Handover(n, a) == [JoinResponse(a, 128, LAST), Insert(k, v)]
  {
    assert Outside([k], 0, 127) == [k] by {
      hide HashOf;
      assert [k][1..] == [];
    }
    assert Inserts([k], n.store.vals) == [Insert(k, v)] by {
      assert [k][1..] == [];
    }
  }

  lemma AcceptedNode(s: Net, b: Id)
    requires Enabled(s, Accept(b))
    ensures var s' := Do(s, Accept(b));
            && Backlog(s, b) != [] && b in s'.nodes && s'.up == s.up
            && s'.nodes[b] == s.nodes[b].(pred := Some(Backlog(s, b)[0]),
                                          mode := if s.nodes[b].mode == Joining then JoinWait else Running)
            && (forall x: Id, y: Id {:trigger Up(s', x, y)} :: Up(s', x, y) == Up(s, x, y))
  {
  }

  lemma AloneHas(s: Net, a: Id)
    requires Alone(s, a)
    ensures a in s.nodes && s.nodes[a].lo == 0 && s.nodes[a].hi == LAST
  {
  }

  lemma SplitThenAccept(s: Net, s': Net, a: Id, j: Id, k: Ssn, v: Value)
    requires Alone(s, a) && j != a && s.nodes[a].store == Store([k], map[k := v]) && HashOf(k) > 127
    requires AfterSplit(Arrived(s, j), s', a, j, a) && Enabled(s', Accept(j))
    ensures var s1 := Do(s', Accept(j));
            && s1.nodes.Keys == {a, j} && s1.nodes[a].mode == AwaitPred
            && s1.nodes[j] == NEW.(pred := Some(a), mode := JoinWait) && s1.udp == multiset{}
            && (forall x: Id, y: Id {:trigger Down(s1, x, y)} ::
                  Down(s1, x, y) == if (x, y) == (a, j) then [JoinResponse(a, 128, LAST), Insert(k, v)] else [])
            && (forall x: Id, y: Id {:trigger Up(s1, x, y)} :: Up(s1, x, y) == [])
            && (forall x {:trigger Backlog(s1, x)} :: Backlog(s1, x) == [])
  {
    hide HashOf, Handover, KeepLower, Enabled, Do, AfterSplit, Alone;
    AloneHas(s, a);
    FirstShipment(s.nodes[a], a, k, v);
    SplitState(s, s', a, j);
    AcceptViews(s', j);
    AcceptedNode(s', j);
  }

  lemma SplitState(s: Net, s': Net, a: Id, j: Id)
    requires Alone(s, a) && j != a && AfterSplit(Arrived(s, j), s', a, j, a)
    ensures s'.nodes.Keys == {a, j} && s'.nodes[a].mode == AwaitPred && s'.nodes[j] == NEW && s'.udp == multiset{}
    ensures forall x: Id, y: Id {:trigger Down(s', x, y)} ::
              Down(s', x, y) == if (x, y) == (a, j) then Handover(s.nodes[a], a) else []
    ensures forall x: Id, y: Id {:trigger Up(s', x, y)} :: Up(s', x, y) == []
    ensures forall x {:trigger Backlog(s', x)} :: Backlog(s', x) == if x == j then [a] else []
  {
    hide Handover, KeepLower;
    var r := Arrived(s, j);
    forall x: Id, y: Id ensures Down(r, x, y) == [] && Up(r, x, y) == [] {
      assert Down(r, x, y) == Down(s, x, y) && Up(r, x, y) == Up(s, x, y);
    }
    forall x ensures Backlog(r, x) == [] {}
  }

  lemma AnswerIsLate(s: Net, s': Net, a: Id, j: Id, m: Msg)
    requires a != j && s.nodes.Keys == {a, j} && s.nodes[a].mode == AwaitPred && s.udp == multiset{}
    requires s.nodes[j] == NEW.(pred := Some(a), mode := JoinWait)
    requires forall x: Id, y: Id {:trigger Down(s, x, y)} ::
               Down(s, x, y) == if (x, y) == (a, j) then [JoinResponse(a, 128, LAST), m] else []
    requires forall x: Id, y: Id {:trigger Up(s, x, y)} :: Up(s, x, y) == []
    requires forall x {:trigger Backlog(s, x)} :: Backlog(s, x) == []
    requires AfterAnswer(s, s', j, a, a, JoinResponse(a, 128, LAST))
    ensures Late(s', a, j, EMPTY_STORE, [m])
  {
    assert Down(s, a, j)[1..] == [m];
  }

  // ---- the run ----

  /** A run of one request at a time: a client inserts k, a node joins, and another request m for k reaches
      the joiner before the entry does. */
  function OvertakenRun(a: Id, j: Id, k: Ssn, v: Value, m: Msg): seq<Event> {
    [ClientSend(a, Insert(k, v)), RecvUdp(Packet(a, Insert(k, v))),
     JoinStart(j, a), RecvUdp(Packet(a, Join(j, 0, 0))), Accept(j), RecvPred(j),
     ClientSend(j, m), RecvUdp(Packet(j, m)),
     RecvPred(j), Accept(a)]
  }

  /** Node a stores the entry, being the whole ring. */
  lemma FirstInsert(a: Id, k: Ssn, v: Value) returns (s: Net, sh: Shape)
    requires a != 0
    ensures Goes(Initial(a), None, [ClientSend(a, Insert(k, v))] + [RecvUdp(Packet(a, Insert(k, v)))], s, None)
    ensures Normal(s, sh, map[]) && Alone(s, a) && s.nodes[a].store == Store([k], map[k := v])
  {
    hide HashOf, Normal, Goes;
    var s0 := Initial(a);
    sh := InitialClean(a);
    CleanIsNormal(s0, sh);
    NothingCarried(a, Insert(k, v));
    s := s0.(nodes := s0.nodes[a := HandleValue(s0.nodes[a], Insert(k, v)).0]);
    AskHandled(s0, sh, map[], a, Insert(k, v));
    forall x: Id, y: Id ensures Down(s, x, y) == [] && Up(s, x, y) == [] {}
  }

  lemma TransferTaken(s: Net, s': Net, a: Id, j: Id, st: Store, m: Msg)
    requires Late(s, a, j, st, [m]) && m.Insert? && HashOf(m.k) > 127 && Down(s, a, j) == [m]
    requires s' == PopDown(s, a, j).(nodes := s.nodes[j := HandleValue(s.nodes[j], m).0])
    ensures Late(s', a, j, Put(st, m.k, m.v), [])
  {
    hide PopDown, HashOf, Put;
    PopDownViews(s, a, j);
    NodesViews(PopDown(s, a, j), s');
  }

  /** Node j reads the transfer. */
  lemma TransferRead(s: Net, sh: Shape, loc: map<Id, Loc>, a: Id, j: Id, st: Store, k: Ssn, v: Value)
    returns (s': Net, loc': map<Id, Loc>)
    requires Normal(s, sh, loc) && Late(s, a, j, st, [Insert(k, v)]) && HashOf(k) > 127
    ensures Goes(s, None, [RecvPred(j)], s', None) && Normal(s', sh, loc') && Late(s', a, j, Put(st, k, v), [])
  {
    hide Locals, Streams, Tokens, Receive, Depart, HashOf, Put;
    var m := Insert(k, v);
    assert Down(s, a, j) == [m];
    PopDownOk(s, sh, loc, j);
    loc' := LocWithout(loc, m);
    var rest := PopDown(s, a, j);
    ValueOk(rest, sh, loc', j, m);
    s' := Receive(rest, j, m);
    TransferTaken(s, s', a, j, st, m);
    GoesOne(s, None, RecvPred(j));
  }

  /** Node a accepts j's connection: the network is quiet. */
  lemma LastAccept(s: Net, sh: Shape, loc: map<Id, Loc>, a: Id, j: Id, st: Store)
    requires Normal(s, sh, loc) && Late(s, a, j, st, [])
    ensures var s' := Do(s, Accept(a));
            && Enabled(s, Accept(a)) && Goes(s, None, [Accept(a)], s', None)
            && Quiescent(s') && !s'.leaving && j in s'.nodes && s'.nodes[j] == s.nodes[j]
  {
    hide Locals, Streams, Tokens;
    GoesOne(s, None, Accept(a));
    AcceptViews(s, a);
    AcceptedNode(s, a);
    hide Do;
    var s' := Do(s, Accept(a));
    forall b | b in s'.nodes ensures s'.nodes[b].mode == Running && Backlog(s', b) == [] {
      assert [j][1..] == [];
    }
  }

  /** The joiner is asked before the transfer has arrived. */
  lemma AskedEarly(s: Net, sh: Shape, loc: map<Id, Loc>, a: Id, j: Id, k: Ssn, v: Value, m: Msg)
    returns (s': Net, st: Store)
    requires Normal(s, sh, loc) && Late(s, a, j, EMPTY_STORE, [Insert(k, v)]) && HashOf(k) > 127
    requires (m.Insert? || m.Remove?) && m.k == k && m != Insert(k, v)
    ensures Goes(s, None, [ClientSend(j, m)] + [RecvUdp(Packet(j, m))], s', None)
    ensures Normal(s', sh, loc) && Late(s', a, j, st, [Insert(k, v)])
  {
    hide Normal, Goes, HashOf;
    NotCarriedYet(s, a, j, Insert(k, v), m);
    AskHandled(s, sh, loc, j, m);
    s' := s.(nodes := s.nodes[j := HandleValue(s.nodes[j], m).0]);
    st := HandleValue(s.nodes[j], m).0.store;
    NodesViews(s, s');
  }

  lemma NotCarriedYet(s: Net, a: Id, j: Id, x: Msg, m: Msg)
    requires Late(s, a, j, EMPTY_STORE, [x]) && m != x
    ensures !Carried(s, m)
  {
  }

  lemma RunTable(a: Id, j: Id, k: Ssn, v: Value, m: Msg)
    ensures TableAfter(map[], OvertakenRun(a, j, k, v, m)) == Apply(map[k := v], m)
  {
    var es := OvertakenRun(a, j, k, v, m);
    assert TableAfter(map[], es) == TableAfter(map[k := v], es[1..]);
    QuietEvents(map[k := v], es[1..], 5);
    assert es[1..][5..] == es[6..];
    assert TableAfter(map[k := v], es[6..]) == TableAfter(Apply(map[k := v], m), es[6..][1..]);
    QuietEvents(Apply(map[k := v], m), es[6..][1..], 3);
  }

  lemma {:induction false} QuietEvents(t: Table, es: seq<Event>, n: nat)
    requires n <= |es| && forall i :: 0 <= i < n ==> !es[i].ClientSend?
    ensures TableAfter(t, es) == TableAfter(t, es[n..])
  {
    if n > 0 {
      QuietEvents(t, es[1..], n - 1);
      assert es[1..][n - 1..] == es[n..];
    } else {
      assert es[0..] == es;
    }
  }

  /** From the token's answer to the joiner's main loop. */
  lemma JoinerUp(s: Net, s': Net, sh: Shape, loc: map<Id, Loc>, a: Id, j: Id, k: Ssn, v: Value) returns (s'': Net)
    requires Alone(s, a) && j != a && s.nodes[a].store == Store([k], map[k := v]) && HashOf(k) > 127
    requires AfterSplit(Arrived(s, j), s', a, j, a) && Normal(s', sh, loc)
    ensures Goes(s', None, [Accept(j)] + [RecvPred(j)], s'', None) && Normal(s'', sh, loc)
    ensures Late(s'', a, j, EMPTY_STORE, [Insert(k, v)])
  {
    hide Normal, Goes, HashOf, AfterSplit, AfterAnswer, Do, Enabled, Alone, Late;
    AloneHas(s, a);
    SplitState(s, s', a, j);
    JoinAccepted(s', sh, loc, j);
    SplitThenAccept(s, s', a, j, k, v);
    var s1 := Do(s', Accept(j));
    AnswerRead(s1, sh, loc, a, j);
    s'' := Do(s1, RecvPred(j));
    AnswerIsLate(s1, s'', a, j, Insert(k, v));
    GoesOn(s', None, [Accept(j)], s1, None, [RecvPred(j)], s'', None);
  }

  lemma RunUp(a: Id, j: Id, k: Ssn, v: Value) returns (s: Net, sh: Shape, loc: map<Id, Loc>)
    requires a != 0 && j != 0 && a != j && HashOf(k) > 127
    ensures Goes(Initial(a), None,
                 [ClientSend(a, Insert(k, v)), RecvUdp(Packet(a, Insert(k, v))),
                  JoinStart(j, a), RecvUdp(Token(a, j)), Accept(j), RecvPred(j)], s, None)
    ensures Normal(s, sh, loc) && Late(s, a, j, EMPTY_STORE, [Insert(k, v)])
  {
    hide Normal, Goes, HashOf, AfterSplit, Alone, Late;
    var s1, sh1 := FirstInsert(a, k, v);
    AloneHas(s1, a);
    var s2;
    s2, sh, loc := JoinAnswered(s1, sh1, map[], a, j);
    s := JoinerUp(s1, s2, sh, loc, a, j, k, v);
    var es1 := [ClientSend(a, Insert(k, v))] + [RecvUdp(Packet(a, Insert(k, v)))];
    var es2 := [JoinStart(j, a)] + [RecvUdp(Token(a, j))];
    GoesOn(Initial(a), None, es1, s1, None, es2, s2, None);
    GoesOn(Initial(a), None, es1 + es2, s2, None, [Accept(j)] + [RecvPred(j)], s, None);
    assert es1 + es2 + ([Accept(j)] + [RecvPred(j)]) ==
           [ClientSend(a, Insert(k, v)), RecvUdp(Packet(a, Insert(k, v))),
            JoinStart(j, a), RecvUdp(Token(a, j)), Accept(j), RecvPred(j)];
  }

  lemma RunDown(s: Net, sh: Shape, loc: map<Id, Loc>, a: Id, j: Id, k: Ssn, v: Value, m: Msg) returns (s': Net)
    requires Normal(s, sh, loc) && Late(s, a, j, EMPTY_STORE, [Insert(k, v)]) && HashOf(k) > 127
    requires (m.Insert? || m.Remove?) && m.k == k && m != Insert(k, v)
    ensures Goes(s, None, [ClientSend(j, m), RecvUdp(Packet(j, m)), RecvPred(j), Accept(a)], s', None)
    ensures Quiescent(s') && !s'.leaving
    ensures j in s'.nodes && k in s'.nodes[j].store.vals && s'.nodes[j].store.vals[k] == v
  {
    hide Normal, Goes, HashOf, Do, Enabled, Quiescent;
    var s1, st := AskedEarly(s, sh, loc, a, j, k, v, m);
    var s2, loc2 := TransferRead(s1, sh, loc, a, j, st, k, v);
    LastAccept(s2, sh, loc2, a, j, Put(st, k, v));
    s' := Do(s2, Accept(a));
    var es := [ClientSend(j, m)] + [RecvUdp(Packet(j, m))];
    GoesOn(s, None, es, s1, None, [RecvPred(j)], s2, None);
    GoesOn(s, None, es + [RecvPred(j)], s2, None, [Accept(a)], s', None);
    assert es + [RecvPred(j)] + [Accept(a)] == [ClientSend(j, m), RecvUdp(Packet(j, m)), RecvPred(j), Accept(a)];
  }

  /** Without the condition the ring is no map: in this run the second request, an insert of another value or
      a remove, is handled by the joiner before it reads the entry that the splitter has shipped. Once all has
      drained the joiner holds the old value, and keeps it. */
  lemma OldValueReturns(a: Id, j: Id, k: Ssn, v: Value, m: Msg)
    requires a != 0 && j != 0 && a != j && HashOf(k) > 127
    requires (m.Insert? || m.Remove?) && m.k == k && m != Insert(k, v)
    ensures var es := OvertakenRun(a, j, k, v, m);
            && OneAtATime(Initial(a), None, es)
            && var s := After(Initial(a), es);
               && Quiescent(s) && !s.leaving && j in s.nodes
               && k in s.nodes[j].store.vals && s.nodes[j].store.vals[k] == v
               && TableAfter(map[], es) == Apply(map[k := v], m) && !Agrees(s, TableAfter(map[], es))
  {
    hide Normal, HashOf, OneAtATime, AskAfter, After, Late, Quiescent, TableAfter, Agrees, Initial;
    var s, sh, loc := RunUp(a, j, k, v);
    var s' := RunDown(s, sh, loc, a, j, k, v, m);
    var up := [ClientSend(a, Insert(k, v)), RecvUdp(Packet(a, Insert(k, v))),
               JoinStart(j, a), RecvUdp(Token(a, j)), Accept(j), RecvPred(j)];
    var down := [ClientSend(j, m), RecvUdp(Packet(j, m)), RecvPred(j), Accept(a)];
    GoesOn(Initial(a), None, up, s, None, down, s', None);
    assert up + down == OvertakenRun(a, j, k, v, m);
    RunTable(a, j, k, v, m);
    Disagrees(s', j, k, v, Apply(map[k := v], m));
  }

  lemma Disagrees(s: Net, j: Id, k: Ssn, v: Value, t: Table)
    requires j in s.nodes && k in s.nodes[j].store.vals && s.nodes[j].store.vals[k] == v && (k in t ==> t[k] != v)
    ensures !Agrees(s, t)
  {
    hide HashOf;
    assert s.nodes[j].store.vals != Restrict(t, s.nodes[j].lo, s.nodes[j].hi);
  }
}
