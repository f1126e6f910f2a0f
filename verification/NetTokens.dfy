/** The NET_JOIN tokens: none is lost or made up, each tells the truth about the span it carries, and
    with at most one join outstanding no node is ever made to split a range of one value. */
module NetTokens {
  import opened Base
  import opened NodeSpec
  import opened Network
  import opened Ring
  import opened NetInv
  import opened NetSteps
  import opened NetJoin
  import opened NetCore
  import opened NetData

  /** The token in event e is answered with a split. */
  ghost predicate SplitsAt(s: Net, e: Event)
    requires Enabled(s, e)
  {
    Delivers(e) && var d := DeliveryOf(s, e); Splits(s, d.b, d.m)
  }

  /** Event e takes token t from where it was; passes on token t. */
  ghost predicate TakesToken(s: Net, e: Event, t: Msg)
    requires Enabled(s, e)
  {
    Delivers(e) && DeliveryOf(s, e).m == t
  }

  ghost predicate PassesToken(s: Net, e: Event, t: Msg)
    requires Enabled(s, e)
  {
    Delivers(e) && !SplitsAt(s, e) &&
    var d := DeliveryOf(s, e);
    d.m.Join? && d.b in s.nodes && t == PassOn(d.b, s.nodes[d.b], d.m)
  }

  /** What an event does to token t. */
  ghost predicate TokenFlow(s: Net, s': Net, e: Event, t: Msg)
    requires Enabled(s, e)
  {
    && (Carried(s', t) ==> Carried(s, t) || PassesToken(s, e, t) || (e.JoinStart? && t == Join(e.j, 0, 0)))
    && (Carried(s, t) ==> Carried(s', t) || TakesToken(s, e, t))
    && (PassesToken(s, e, t) ==> Carried(s', t))
    && (TakesToken(s, e, t) && !PassesToken(s, e, t) ==> !Carried(s', t))
    && (e.JoinStart? && t == Join(e.j, 0, 0) ==> Carried(s', t))
  }

  /** Members that are in the ring stay there with their ranges. */
  ghost predicate StaysPut(s: Net, s': Net) {
    forall a {:trigger s'.nodes[a]} {:trigger s.nodes[a]} :: a in s.nodes && InRing(s.nodes[a]) ==>
      a in s'.nodes && InRing(s'.nodes[a]) && s'.nodes[a].lo == s.nodes[a].lo && s'.nodes[a].hi == s.nodes[a].hi
  }

  ghost predicate NoNewcomer(s: Net, s': Net) {
    forall a :: a in s'.nodes && !InRing(s'.nodes[a]) ==> a in s.nodes && !InRing(s.nodes[a])
  }

  // ---- handling a message in hand ----

  /** The reaction moves tokens as it should. */
  ghost predicate HandFlow(s: Net, s': Net, b: Id, m: Msg, t: Msg)
    requires b in s.nodes
  {
    Carried(s', t) <==> Carried(s, t) || (m.Join? && !Splits(s, b, m) && t == PassOn(b, s.nodes[b], m))
  }

  ghost predicate HandStays(s: Net, s': Net, b: Id, m: Msg) {
    NoNewcomer(s, s') && (!Splits(s, b, m) ==> StaysPut(s, s'))
  }

  lemma ValueKeeps(n: Node, m: Msg)
    requires IsRequest(m)
    ensures var n' := HandleValue(n, m).0; n'.mode == n.mode && n'.lo == n.lo && n'.hi == n.hi
  {
  }

  lemma RequestStays(s: Net, sh: Shape, loc: map<Id, Loc>, b: Id, m: Msg)
    requires Normal(s, sh, loc) && b in s.nodes && s.nodes[b].mode == Running && IsRequest(m)
    ensures HandStays(s, Receive(s, b, m), b, m)
  {
    hide Normal, Receive, HandleValue, Owns, React;
    ValueOk(s, sh, loc, b, m);
    ValueKeeps(s.nodes[b], m);
  }

  lemma RequestFlow(s: Net, sh: Shape, loc: map<Id, Loc>, b: Id, m: Msg, t: Msg)
    requires Normal(s, sh, loc) && b in s.nodes && s.nodes[b].mode == Running && IsRequest(m) && t.Join?
    ensures HandFlow(s, Receive(s, b, m), b, m, t) && HandStays(s, Receive(s, b, m), b, m)
  {
    hide Normal, Locals, Receive, Inserts, HandStays, Carried, PassOn;
    RequestStays(s, sh, loc, b, m);
    ValueOk(s, sh, loc, b, m);
    if Owns(s.nodes[b], m.k) {
      StoreCarried(s, b, HandleValue(s.nodes[b], m).0.store, t);
    } else {
      PushDownCarried(s, b, sh.nxt[b], m, t);
    }
  }

  lemma SplitFlow(s: Net, sh: Shape, loc: map<Id, Loc>, b: Id, m: Msg, t: Msg)
    requires Normal(s, sh, loc) && InHand(s, sh, loc, m) && Splits(s, b, m) && t.Join?
    ensures HandFlow(s, Receive(s, b, m), b, m, t) && HandStays(s, Receive(s, b, m), b, m)
  {
    hide Receive, React, Locals, Tokens, Handover, OnDown, OnUp, OnUdp, KeepLower;
    SplitEffect(s, sh, loc, b, m);
    NewcomerStream(s, sh, loc, b, m.src);
    HandoverPlain(s.nodes[b], sh.nxt[b]);
    SplitCarried(s, Receive(s, b, m), b, m.src, sh.nxt[b], t);
  }

  lemma HandleFlow(s: Net, sh: Shape, loc: map<Id, Loc>, b: Id, m: Msg, t: Msg)
    requires Normal(s, sh, loc) && b in s.nodes && s.nodes[b].mode == Running && InHand(s, sh, loc, m) && t.Join?
    ensures HandFlow(s, Receive(s, b, m), b, m, t) && HandStays(s, Receive(s, b, m), b, m)
  {
    if IsRequest(m) {
      RequestFlow(s, sh, loc, b, m, t);
    } else if Splits(s, b, m) {
      SplitFlow(s, sh, loc, b, m, t);
    } else {
      TokenPassOk(s, sh, loc, b, m);
      PushDownCarried(s, b, sh.nxt[b], PassOn(b, s.nodes[b], m), t);
    }
  }

  lemma FlowOfHand(s: Net, rest: Net, e: Event, b: Id, m: Msg, t: Msg)
    requires Enabled(s, e) && Delivers(e) && DeliveryOf(s, e) == Delivery(b, m, rest) && rest.nodes == s.nodes
    requires b in s.nodes && Do(s, e) == Receive(rest, b, m) && t.Join?
    requires Carried(rest, t) ==> Carried(s, t)
    requires Carried(s, t) ==> Carried(rest, t) || t == m
    requires t == m ==> !Carried(rest, t)
    requires HandFlow(rest, Receive(rest, b, m), b, m, t) && HandStays(rest, Receive(rest, b, m), b, m)
    ensures TokenFlow(s, Do(s, e), e, t) && NoNewcomer(s, Do(s, e)) && (!SplitsAt(s, e) ==> StaysPut(s, Do(s, e)))
  {
    assert Splits(s, b, m) == Splits(rest, b, m);
  }

  /** Where a token is, if anywhere. */
  lemma TokenPlace(s: Net, sh: Shape, loc: map<Id, Loc>, t: Msg)
    requires Normal(s, sh, loc) && Carried(s, t) && t.Join?
    ensures t.src in loc
    ensures match loc[t.src]
            case InBag => exists p :: p in s.udp && p.m == t
            case OnLink(x, y) => t in Down(s, x, y)
  {
    hide Locals;
    if OnDown(s, t) {
      var x: Id, y: Id :| t in Down(s, x, y);
      assert TokensOn(Down(s, x, y), OnLink(x, y), loc);
    } else {
      NothingUp(s, sh, t);
    }
  }

  /** A token in hand is not in flight at the same time. */
  lemma NotElsewhere(s: Net, sh: Shape, loc: map<Id, Loc>, t: Msg)
    requires Normal(s, sh, loc) && t.Join? && t.src !in loc
    ensures !Carried(s, t)
  {
    hide Normal;
    if Carried(s, t) {
      TokenPlace(s, sh, loc, t);
    }
  }

  /** No joiner has two tokens. */
  lemma OneTokenPerJoiner(s: Net, sh: Shape, loc: map<Id, Loc>, t: Msg, t': Msg)
    requires Normal(s, sh, loc) && Carried(s, t) && Carried(s, t') && t.Join? && t'.Join? && t.src == t'.src
    ensures t == t'
  {
    hide Locals, Streams;
    TokenPlace(s, sh, loc, t);
    TokenPlace(s, sh, loc, t');
    if loc[t.src].OnLink? {
      var ch := Down(s, loc[t.src].x, loc[t.src].y);
      assert TokensOn(ch, loc[t.src], loc);
      var i :| 0 <= i < |ch| && ch[i] == t;
      var k :| 0 <= k < |ch| && ch[k] == t';
    }
  }

  lemma RecvUdpFlow(s: Net, sh: Shape, loc: map<Id, Loc>, e: Event, t: Msg)
    requires Normal(s, sh, loc) && Enabled(s, e) && e.RecvUdp? && t.Join?
    ensures TokenFlow(s, Do(s, e), e, t) && NoNewcomer(s, Do(s, e)) && (!SplitsAt(s, e) ==> StaysPut(s, Do(s, e)))
  {
    var rest := s.(udp := s.udp - multiset{e.p});
    PopUdpOk(s, sh, loc, e.p);
    PopUdpCarried(s, e.p, t);
    HandleFlow(rest, sh, LocWithout(loc, e.p.m), e.p.dest, e.p.m, t);
    if t == e.p.m {
      NotElsewhere(rest, sh, LocWithout(loc, t), t);
    }
    FlowOfHand(s, rest, e, e.p.dest, e.p.m, t);
  }

  lemma RecvPlainFlow(s: Net, sh: Shape, loc: map<Id, Loc>, e: Event, t: Msg)
    requires Normal(s, sh, loc) && Enabled(s, e) && e.RecvPred? && t.Join?
    requires s.nodes[e.b].mode == Running && PlainMsg(Down(s, s.nodes[e.b].pred.value, e.b)[0])
    ensures TokenFlow(s, Do(s, e), e, t) && NoNewcomer(s, Do(s, e)) && (!SplitsAt(s, e) ==> StaysPut(s, Do(s, e)))
  {
    var x := s.nodes[e.b].pred.value;
    var m := Down(s, x, e.b)[0];
    PopDownOk(s, sh, loc, e.b);
    PopDownCarried(s, x, e.b, t);
    HandleFlow(PopDown(s, x, e.b), sh, LocWithout(loc, m), e.b, m, t);
    if t == m {
      NotElsewhere(PopDown(s, x, e.b), sh, LocWithout(loc, t), t);
    }
    FlowOfHand(s, PopDown(s, x, e.b), e, e.b, m, t);
  }

  /** A joiner that waits for its answer has not written anything yet. */
  lemma NotYetWriter(s: Net, sh: Shape, loc: map<Id, Loc>, e: Event)
    requires Normal(s, sh, loc) && AtAnswer(s, sh, e)
    ensures e.b in s.nodes && e.b in sh.nxt && s.nodes[e.b].pred.Some?
    ensures Down(s, e.b, sh.nxt[e.b]) == [] && NoUp(s)
  {
    hide Tiles, PipeOk, NodeOk, Tokens;
    assert Member(sh, sh.nxt[e.b]) && LocalOk(s, sh, sh.nxt[e.b]);
  }

  lemma NoTokenTaken(s: Net, e: Event, t: Msg)
    requires Enabled(s, e) && e.RecvPred? && !Down(s, s.nodes[e.b].pred.value, e.b)[0].Join? && t.Join?
    ensures !TakesToken(s, e, t) && !PassesToken(s, e, t)
    ensures TokenFlow(s, Do(s, e), e, t) <==> (Carried(s, t) <==> Carried(Do(s, e), t))
  {
    hide Do, PassOn, Carried;
  }

  lemma AnswerFlow(s: Net, sh: Shape, loc: map<Id, Loc>, e: Event, t: Msg)
    requires Normal(s, sh, loc) && AtAnswer(s, sh, e) && t.Join?
    ensures TokenFlow(s, Do(s, e), e, t) && NoNewcomer(s, Do(s, e)) && StaysPut(s, Do(s, e))
  {
    hide Do, Enabled, Locals, Tokens, Carried, TokenFlow, NoUp;
    NotYetWriter(s, sh, loc, e);
    var x := s.nodes[e.b].pred.value;
    AnswerEffect(s, sh, e);
    NoTokenTaken(s, e, t);
    AnswerCarried(s, Do(s, e), e.b, x, sh.nxt[e.b], Down(s, x, e.b)[0], t);
  }

  lemma CloseFlow(s: Net, sh: Shape, loc: map<Id, Loc>, e: Event, t: Msg)
    requires Normal(s, sh, loc) && AtClose(s, e) && t.Join?
    ensures TokenFlow(s, Do(s, e), e, t) && NoNewcomer(s, Do(s, e)) && StaysPut(s, Do(s, e))
  {
    hide PipeOk, Locals, Do, Tokens, OnDown;
    CloseEffect(s, sh, loc, e);
    CloseStream(s, sh, e);
    CloseCarried(s, Do(s, e), e.b, s.nodes[e.b].pred.value, t);
  }

  lemma RecvPredFlow(s: Net, sh: Shape, loc: map<Id, Loc>, e: Event, t: Msg)
    requires Normal(s, sh, loc) && Enabled(s, e) && e.RecvPred? && t.Join?
    ensures TokenFlow(s, Do(s, e), e, t) && NoNewcomer(s, Do(s, e)) && (!SplitsAt(s, e) ==> StaysPut(s, Do(s, e)))
  {
    IsMember(s, sh, e.b);
    if s.nodes[e.b].mode == JoinWait {
      AnswerFlow(s, sh, loc, e, t);
    } else {
      assert LocalOk(s, sh, e.b);
      RunningHead(s, sh, e.b);
      if Down(s, s.nodes[e.b].pred.value, e.b)[0] == Close {
        CloseFlow(s, sh, loc, e, t);
      } else {
        RecvPlainFlow(s, sh, loc, e, t);
      }
    }
  }

  // ---- the other events ----

  lemma SameStreamsCarried(s: Net, s': Net, t: Msg)
    requires s'.down == s.down && s'.up == s.up && s'.udp == s.udp
    ensures Carried(s', t) <==> Carried(s, t)
  {
    DownChanged(s, s', 0, 0, t);
    DownChanged(s', s, 0, 0, t);
    assert Down(s', 0, 0) == Down(s, 0, 0);
  }

  lemma JoinStartFlow(s: Net, e: Event, t: Msg)
    requires Enabled(s, e) && e.JoinStart? && t.Join?
    ensures TokenFlow(s, Do(s, e), e, t) && StaysPut(s, Do(s, e))
  {
    var s' := Do(s, e);
    var p := Packet(e.entry, Join(e.j, 0, 0));
    assert s'.udp - multiset{p} == s.udp;
    PopUdpCarried(s', p, t);
    SameStreamsCarried(s, s'.(udp := s'.udp - multiset{p}), t);
    assert OnUdp(s', Join(e.j, 0, 0)) by { assert p in s'.udp; }
  }

  lemma ClientSendFlow(s: Net, e: Event, t: Msg)
    requires Enabled(s, e) && e.ClientSend? && t.Join?
    ensures TokenFlow(s, Do(s, e), e, t) && StaysPut(s, Do(s, e)) && NoNewcomer(s, Do(s, e))
  {
    var s' := Do(s, e);
    var p := Packet(e.dest, e.m);
    assert s'.udp - multiset{p} == s.udp;
    PopUdpCarried(s', p, t);
    SameStreamsCarried(s, s'.(udp := s'.udp - multiset{p}), t);
  }

  /** An accept or the end of a leave. */
  lemma QuietFlow(s: Net, e: Event, t: Msg)
    requires Enabled(s, e) && (e.Accept? || e.LeaveDone?)
    ensures TokenFlow(s, Do(s, e), e, t) && NoNewcomer(s, Do(s, e)) && StaysPut(s, Do(s, e))
  {
    SameStreamsCarried(s, Do(s, e), t);
  }

  lemma NothingFromAbove(s: Net, sh: Shape, loc: map<Id, Loc>, e: Event)
    requires Normal(s, sh, loc) && Enabled(s, e)
    ensures !e.RecvSucc?
  {
    hide Locals, Tokens;
  }

  /** No step of a network in which nobody leaves loses, doubles or invents a token, and only a
      split changes ranges. */
  lemma NormalFlow(s: Net, sh: Shape, loc: map<Id, Loc>, e: Event, t: Msg)
    requires Normal(s, sh, loc) && Enabled(s, e) && !e.LeaveStart? && t.Join?
    ensures TokenFlow(s, Do(s, e), e, t)
    ensures !e.JoinStart? ==> NoNewcomer(s, Do(s, e))
    ensures !SplitsAt(s, e) ==> StaysPut(s, Do(s, e))
  {
    hide Do, Enabled, TokenFlow, NoNewcomer, StaysPut, SplitsAt, Normal;
    NothingFromAbove(s, sh, loc, e);
    match e
    case ClientSend(_, _) => ClientSendFlow(s, e, t);
    case JoinStart(_, _) => JoinStartFlow(s, e, t);
    case RecvUdp(_) => RecvUdpFlow(s, sh, loc, e, t);
    case RecvPred(_) => RecvPredFlow(s, sh, loc, e, t);
    case _ => QuietFlow(s, e, t);
  }

  // ---- what holds of the tokens of every reachable state ----

  /** A joiner nobody has answered still has its token somewhere. */
  ghost predicate Searching(s: Net, j: Id) {
    exists span, id :: Carried(s, Join(j, span, id))
  }

  ghost predicate TokensAlive(s: Net) {
    forall j :: j in s.nodes && s.nodes[j].mode == Joining && Backlog(s, j) == [] ==> Searching(s, j)
  }

  /** The token names no node yet, or a ring member whose span, of more than one value, is the token's. */
  ghost predicate Truthful(s: Net, t: Msg) {
    t.Join? ==>
      || (t.maxId == 0 && t.maxSpan == 0)
      || (t.maxId in s.nodes && InRing(s.nodes[t.maxId]) && Span(s.nodes[t.maxId]) == t.maxSpan > 0)
  }

  ghost predicate TokensTruthful(s: Net) {
    forall t {:trigger Carried(s, t)} :: Carried(s, t) ==> Truthful(s, t)
  }

  /** At most one node is on its way into the ring. */
  ghost predicate OneJoiner(s: Net) {
    forall i, j {:trigger s.nodes[i], s.nodes[j]} ::
      i in s.nodes && j in s.nodes && !InRing(s.nodes[i]) && !InRing(s.nodes[j]) ==> i == j
  }

  ghost predicate AllInRing(s: Net) {
    forall b :: b in s.nodes ==> InRing(s.nodes[b])
  }

  lemma NothingUp(s: Net, sh: Shape, t: Msg)
    requires Streams(s, sh)
    ensures !OnUp(s, t)
  {
    forall x: Id, y: Id ensures t !in Up(s, x, y) {}
  }

  lemma CarriedOutsider(s: Net, sh: Shape, loc: map<Id, Loc>, t: Msg)
    requires Normal(s, sh, loc) && Carried(s, t) && t.Join?
    ensures Outsider(s, sh, t.src) && Fresh(s, t.src)
  {
    if OnDown(s, t) {
      var x: Id, y: Id :| t in Down(s, x, y);
      var i :| 0 <= i < |Down(s, x, y)| && Down(s, x, y)[i] == t;
      assert TokensOn(Down(s, x, y), OnLink(x, y), loc);
    } else {
      NothingUp(s, sh, t);
      var p :| p in s.udp && p.m == t;
    }
  }

  // ---- truthfulness with one join at a time ----

  /** A truthful token only names nodes that can split. */
  lemma TruthGuards(s: Net, sh: Shape, loc: map<Id, Loc>, e: Event)
    requires Normal(s, sh, loc) && TokensTruthful(s) && Enabled(s, e)
    ensures SplitGuard(s, e)
  {
    if SplitsAt(s, e) {
      var d := DeliveryOf(s, e);
      MemberFields(s, sh, loc, d.b);
      DeliveredCarried(s, e);
    }
  }

  /** The only token is gone once its joiner has been answered. */
  lemma NoTokenAfterSplit(s: Net, sh: Shape, loc: map<Id, Loc>, e: Event, t: Msg)
    requires Normal(s, sh, loc) && Enabled(s, e) && OneJoiner(s) && SplitsAt(s, e) && SplitGuard(s, e) && t.Join?
    ensures !Carried(Do(s, e), t)
  {
    hide Normal, StaysPut, Do, Enabled, Handle, OnDown;
    var s' := Do(s, e);
    if Carried(s', t) {
      var sh', loc' := NormalStep(s, sh, loc, e);
      CarriedOutsider(s', sh', loc', t);
      NormalFlow(s, sh, loc, e, t);
      SplitAnswers(s, sh, loc, e);
    }
  }

  /** After the split the joiner has a connection waiting. */
  lemma SplitAnswers(s: Net, sh: Shape, loc: map<Id, Loc>, e: Event)
    requires Normal(s, sh, loc) && Enabled(s, e) && SplitsAt(s, e) && SplitGuard(s, e)
    ensures var j := DeliveryOf(s, e).m.src; Outsider(s, sh, j) && Fresh(s, j) && Backlog(Do(s, e), j) != []
  {
    hide Linked, SplitGuard, Tokens, KeepLower, TokensOn, Receive, LocalOk;
    var d := DeliveryOf(s, e);
    if e.RecvUdp? {
      PopUdpOk(s, sh, loc, e.p);
      SplitEffect(d.rest, sh, LocWithout(loc, d.m), d.b, d.m);
    } else {
      PopDownOk(s, sh, loc, e.b);
      SplitEffect(d.rest, sh, LocWithout(loc, d.m), d.b, d.m);
    }
    assert Outsider(d.rest, sh, d.m.src);
  }

  /** A token that names a node which keeps its range stays truthful; a node names itself truthfully. */
  lemma TruthKept(s: Net, s': Net, e: Event, t: Msg)
    requires Enabled(s, e) && TokenFlow(s, s', e, t) && StaysPut(s, s') && TokensTruthful(s) && Carried(s', t)
    requires Delivers(e) ==> Carried(s, DeliveryOf(s, e).m) && DeliveryOf(s, e).b in s.nodes
    requires PassesToken(s, e, t) ==> InRing(s.nodes[DeliveryOf(s, e).b])
    ensures Truthful(s', t)
  {
    if PassesToken(s, e, t) {
      var d := DeliveryOf(s, e);
      assert Truthful(s, d.m);
    }
  }

  /** A node that passes a token on is in its main loop. */
  lemma PasserInRing(s: Net, sh: Shape, loc: map<Id, Loc>, e: Event, t: Msg)
    requires Normal(s, sh, loc) && Enabled(s, e) && PassesToken(s, e, t)
    ensures InRing(s.nodes[DeliveryOf(s, e).b])
  {
    if e.RecvPred? && s.nodes[e.b].mode == JoinWait {
      IsMember(s, sh, e.b);
      assert LocalOk(s, sh, e.b);
    }
  }

  lemma TruthStep(s: Net, sh: Shape, loc: map<Id, Loc>, e: Event)
    requires Normal(s, sh, loc) && OneJoiner(s) && TokensTruthful(s) && Enabled(s, e) && !e.LeaveStart?
    ensures TokensTruthful(Do(s, e))
  {
    var s' := Do(s, e);
    TruthGuards(s, sh, loc, e);
    forall t {:trigger Carried(s', t)} | Carried(s', t) ensures Truthful(s', t) {
      if t.Join? {
        NormalFlow(s, sh, loc, e, t);
        if SplitsAt(s, e) {
          NoTokenAfterSplit(s, sh, loc, e, t);
        } else {
          if Delivers(e) {
            DeliveredCarried(s, e);
          }
          if PassesToken(s, e, t) {
            PasserInRing(s, sh, loc, e, t);
          }
          TruthKept(s, s', e, t);
        }
      }
    }
  }

  lemma OneJoinerStep(s: Net, sh: Shape, loc: map<Id, Loc>, e: Event)
    requires Normal(s, sh, loc) && OneJoiner(s) && Enabled(s, e) && !e.LeaveStart? && (e.JoinStart? ==> AllInRing(s))
    ensures OneJoiner(Do(s, e))
  {
    NormalFlow(s, sh, loc, e, Join(0, 0, 0));
  }

  // ---- tokens stay alive ----

  lemma SearchingStep(s: Net, sh: Shape, loc: map<Id, Loc>, e: Event, j: Id)
    requires Normal(s, sh, loc) && Enabled(s, e) && SplitGuard(s, e) && !e.LeaveStart? && Searching(s, j)
    ensures Searching(Do(s, e), j) || (j in Do(s, e).nodes && Backlog(Do(s, e), j) != [])
  {
    var span, id :| Carried(s, Join(j, span, id));
    var t := Join(j, span, id);
    NormalFlow(s, sh, loc, e, t);
    if !Carried(Do(s, e), t) {
      if SplitsAt(s, e) {
        SplitAnswers(s, sh, loc, e);
        JoinerRemains(s, sh, loc, e, j);
      } else {
        PassedSearches(s, sh, loc, e, t);
      }
    }
  }

  lemma NoLeaver(s: Net, sh: Shape, b: Id)
    requires Locals(s, sh) && b in s.nodes
    ensures s.nodes[b].mode != LeaveWait
  {
    assert if Member(sh, b) then LocalOk(s, sh, b) else Outsider(s, sh, b) && Fresh(s, b);
  }

  lemma JoinerRemains(s: Net, sh: Shape, loc: map<Id, Loc>, e: Event, j: Id)
    requires Normal(s, sh, loc) && Enabled(s, e) && !e.LeaveStart? && j in s.nodes
    ensures j in Do(s, e).nodes
  {
    if Delivers(e) {
      DeliveryNodes(s, e);
      NoLeaver(s, sh, DeliveryOf(s, e).b);
    }
  }

  lemma PassedSearches(s: Net, sh: Shape, loc: map<Id, Loc>, e: Event, t: Msg)
    requires Normal(s, sh, loc) && Enabled(s, e) && !e.LeaveStart? && TakesToken(s, e, t) && !SplitsAt(s, e) && t.Join?
    ensures Searching(Do(s, e), t.src)
  {
    hide Do, Locals;
    DeliveredCarried(s, e);
    var d := DeliveryOf(s, e);
    var t' := PassOn(d.b, s.nodes[d.b], t);
    NormalFlow(s, sh, loc, e, t');
    assert Carried(Do(s, e), Join(t.src, t'.maxSpan, t'.maxId));
  }

  lemma AliveStep(s: Net, sh: Shape, loc: map<Id, Loc>, e: Event)
    requires Normal(s, sh, loc) && Enabled(s, e) && SplitGuard(s, e) && !e.LeaveStart? && TokensAlive(s)
    ensures TokensAlive(Do(s, e))
  {
    var s' := Do(s, e);
    forall j | j in s'.nodes && s'.nodes[j].mode == Joining && Backlog(s', j) == [] ensures Searching(s', j) {
      NormalFlow(s, sh, loc, e, Join(j, 0, 0));
      if !(e.JoinStart? && e.j == j) {
        WasUnanswered(s, sh, loc, e, j);
        assert Searching(s, j);
        SearchingStep(s, sh, loc, e, j);
      }
    }
  }

  lemma UnansweredOutsider(s: Net, sh: Shape, j: Id)
    requires Locals(s, sh) && j in s.nodes && s.nodes[j].mode == Joining && Backlog(s, j) == []
    ensures !Member(sh, j)
  {
  }

  /** A joiner without a connection after a step had none before. */
  lemma WasUnanswered(s: Net, sh: Shape, loc: map<Id, Loc>, e: Event, j: Id)
    requires Normal(s, sh, loc) && Enabled(s, e) && SplitGuard(s, e) && !e.LeaveStart?
    requires j in Do(s, e).nodes && Do(s, e).nodes[j].mode == Joining && Backlog(Do(s, e), j) == []
    requires !(e.JoinStart? && e.j == j)
    ensures Outsider(s, sh, j) && Fresh(s, j)
  {
    var sh', loc' := NormalStep(s, sh, loc, e);
    NobodyAppears(s, e, j);
    UnansweredOutsider(Do(s, e), sh', j);
    assert Outsider(s, sh, j);
  }

  /** No operation on links touches the nodes or the bag. */
  lemma LinkOps()
    ensures forall s: Net, x: Id, y: Id {:trigger CloseLink(s, x, y)} ::
              CloseLink(s, x, y).nodes == s.nodes
              && CloseLink(s, x, y).leaving == s.leaving && CloseLink(s, x, y).udp == s.udp
    ensures forall s: Net, x: Id, y: Id {:trigger Connect(s, x, y)} ::
              Connect(s, x, y).nodes == s.nodes
              && Connect(s, x, y).leaving == s.leaving && Connect(s, x, y).udp == s.udp
    ensures forall s: Net, x: Id, y: Id, ms: seq<Msg> {:trigger PushDown(s, x, y, ms)} ::
              PushDown(s, x, y, ms).nodes == s.nodes
              && PushDown(s, x, y, ms).leaving == s.leaving && PushDown(s, x, y, ms).udp == s.udp
    ensures forall s: Net, x: Id, y: Id, ms: seq<Msg> {:trigger PushUp(s, x, y, ms)} ::
              PushUp(s, x, y, ms).nodes == s.nodes
              && PushUp(s, x, y, ms).leaving == s.leaving && PushUp(s, x, y, ms).udp == s.udp
  {
  }

  lemma EmitNodes(s: Net, b: Id, n: Node, n': Node, out: Out)
    ensures Emit(s, b, n, n', out).nodes == s.nodes[b := n']
    ensures Emit(s, b, n, n', out).leaving == s.leaving && Emit(s, b, n, n', out).udp == s.udp
  {
    hide Connect, CloseLink, PushUp, PushDown;
    LinkOps();
  }

  lemma DeliveryRest(s: Net, e: Event)
    requires Enabled(s, e) && Delivers(e)
    ensures DeliveryOf(s, e).b in s.nodes && DeliveryOf(s, e).rest.nodes == s.nodes
  {
  }

  /** A message handled by b changes no other node. */
  lemma DeliveryNodes(s: Net, e: Event)
    requires Enabled(s, e) && Delivers(e)
    ensures var b := DeliveryOf(s, e).b;
            b in s.nodes &&
            if s.nodes[b].mode == LeaveWait then Do(s, e).nodes.Keys == s.nodes.Keys - {b}
            else Do(s, e).nodes.Keys == s.nodes.Keys
  {
    var d := DeliveryOf(s, e);
    DeliveryRest(s, e);
    var n := s.nodes[d.b];
    if n.mode == LeaveWait {
      EmitNodes(d.rest, d.b, n, n, Farewell(n, d.m));
    } else {
      var (n', out) := React(d.rest, d.b, d.m);
      EmitNodes(d.rest, d.b, n, n', out);
    }
  }

  lemma NobodyAppears(s: Net, e: Event, j: Id)
    requires Enabled(s, e) && j in Do(s, e).nodes && !(e.JoinStart? && e.j == j) && !e.LeaveStart?
    ensures j in s.nodes
  {
    if Delivers(e) {
      DeliveryNodes(s, e);
    }
  }
}
