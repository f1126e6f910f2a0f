/** What one round of the protocol does to a quiet ring: a request, a join, a leave. Serial runs are
    made of such rounds. */
module NetRounds {
  import opened Base
  import opened StoreSpec
  import opened NodeSpec
  import opened Network
  import opened Ring
  import opened RingWalk
  import opened NetInv
  import opened NetSteps
  import opened NetJoin
  import opened NetCore
  import opened NetData
  import opened NetLeave
  import opened NetTheorems
  import opened NetTokens
  import opened NetSingle
  import opened NetMap

  /** A ring at rest or relinking after a split; one with a request in it; one with the token of
      joiner j in it, which entered at index i and has been passed on t times. */
  datatype Phase = Steady(sh: Shape) | Asked(sh: Shape, m: Msg, b: Id) | Sought(sh: Shape, j: Id, i: nat, t: nat)

  ghost predicate Settling(s: Net, sh: Shape) {
    Normal(s, sh, map[]) && s.nodes.Keys == sh.nxt.Keys
  }

  ghost predicate TokenTravels(s: Net, sh: Shape, j: Id, i: nat, t: nat) {
    && InOrder(s, sh, {j}) && i < |sh.order|
    && if |sh.order| == 1 then t == 0 && OnlyMessage(s, Join(j, 0, 0), sh.order[0])
       else
         && RingOf(sh.order, s.nodes)
         && OnlyMessage(s, TokenAfter(sh.order, s.nodes, j, i, t), Visited(sh.order, i, t))
         && forall u: nat :: u < t ==> !StopsAt(sh.order, s.nodes, j, i, u)
  }

  ghost predicate PhaseInv(s: Net, ph: Phase) {
    match ph
    case Steady(sh) => Settling(s, sh)
    case Asked(sh, m, b) => OnTheWay(s, sh, m, b)
    case Sought(sh, j, i, t) => TokenTravels(s, sh, j, i, t)
  }

  // ---- relinking ----

  lemma NoTokenLeft(s: Net, sh: Shape, t: Msg)
    requires Settling(s, sh) && Carried(s, t)
    ensures !t.Join?
  {
    if t.Join? {
      CarriedOutsider(s, sh, map[], t);
    }
  }

  lemma SettlingUdp(s: Net, sh: Shape, e: Event)
    requires Settling(s, sh) && Enabled(s, e) && e.RecvUdp?
    ensures Normal(Do(s, e), sh, map[])
  {
    hide Locals, Streams;
    assert OnUdp(s, e.p.m);
    NoTokenLeft(s, sh, e.p.m);
    PopUdpOk(s, sh, map[], e.p);
    ValueOk(s.(udp := s.udp - multiset{e.p}), sh, map[], e.p.dest, e.p.m);
  }

  lemma SettlingPlain(s: Net, sh: Shape, e: Event)
    requires Settling(s, sh) && Enabled(s, e) && e.RecvPred?
    requires s.nodes[e.b].mode == Running && PlainMsg(Down(s, s.nodes[e.b].pred.value, e.b)[0])
    ensures Normal(Do(s, e), sh, map[])
  {
    var x := s.nodes[e.b].pred.value;
    var m := Down(s, x, e.b)[0];
    assert m in Down(s, x, e.b);
    NoTokenLeft(s, sh, m);
    PopDownOk(s, sh, map[], e.b);
    ValueOk(PopDown(s, x, e.b), sh, map[], e.b, m);
  }

  lemma SettlingPred(s: Net, sh: Shape, e: Event)
    requires Settling(s, sh) && Enabled(s, e) && e.RecvPred?
    ensures Normal(Do(s, e), sh, map[])
  {
    IsMember(s, sh, e.b);
    if s.nodes[e.b].mode == JoinWait {
      AnswerOk(s, sh, map[], e);
    } else {
      assert LocalOk(s, sh, e.b);
      RunningHead(s, sh, e.b);
      if Down(s, s.nodes[e.b].pred.value, e.b)[0] == Close {
        CloseOk(s, sh, map[], e);
      } else {
        SettlingPlain(s, sh, e);
      }
    }
  }

  lemma SettlingNormal(s: Net, sh: Shape, e: Event)
    requires Settling(s, sh) && Enabled(s, e) && !External(e)
    ensures Normal(Do(s, e), sh, map[])
  {
    match e
    case Accept(_) => AcceptOk(s, sh, map[], e);
    case RecvUdp(_) => SettlingUdp(s, sh, e);
    case RecvPred(_) => SettlingPred(s, sh, e);
    case RecvSucc(_) =>
    case LeaveDone =>
  }

  lemma KeysKept(s: Net, sh: Shape, e: Event)
    requires Locals(s, sh) && Enabled(s, e) && !External(e)
    ensures Do(s, e).nodes.Keys == s.nodes.Keys
  {
    if Delivers(e) {
      DeliveryNodes(s, e);
      NoLeaver(s, sh, DeliveryOf(s, e).b);
    }
  }

  /** Relinking and shipping entries do not change the ring. */
  lemma SettlingStep(s: Net, sh: Shape, e: Event)
    requires Settling(s, sh) && Enabled(s, e) && !External(e)
    ensures Settling(Do(s, e), sh)
  {
    SettlingNormal(s, sh, e);
    KeysKept(s, sh, e);
  }

  lemma CleanSettles(s: Net, sh: Shape)
    requires Clean(s, sh)
    ensures Settling(s, sh)
  {
    CleanIsNormal(s, sh);
  }

  // ---- the token ----

  lemma CleanRing(s: Net, sh: Shape, extra: set<Id>)
    requires InOrder(s, sh, extra) && |sh.order| > 1
    ensures RingOf(sh.order, s.nodes)
  {
    forall i | 0 <= i < |sh.order|
      ensures sh.order[i] in s.nodes && s.nodes[sh.order[i]].lo <= s.nodes[sh.order[i]].hi
      ensures s.nodes[sh.order[i]].pred.Some? && s.nodes[sh.order[i]].succ.Some? && sh.order[i] != 0
    {
      assert Member(sh, sh.order[i]) && CleanNode(s, sh, sh.order[i]);
      AloneIff(sh, sh.order[i]);
    }
  }

  /** A node starts joining a quiet ring. */
  lemma SeekStart(s: Net, sh: Shape, e: Event) returns (i: nat)
    requires Clean(s, sh) && Enabled(s, e) && e.JoinStart?
    ensures i < |sh.order| && sh.order[i] == e.entry && TokenTravels(Do(s, e), sh, e.j, i, 0)
  {
    i := IndexOf(sh, e.entry);
    SeekInOrder(s, sh, e);
    if |sh.order| > 1 {
      CleanRing(Do(s, e), sh, {e.j});
      assert Visited(sh.order, i, 0) == e.entry;
    }
  }

  lemma SeekInOrder(s: Net, sh: Shape, e: Event)
    requires Clean(s, sh) && Enabled(s, e) && e.JoinStart?
    ensures InOrder(Do(s, e), sh, {e.j}) && OnlyMessage(Do(s, e), Join(e.j, 0, 0), e.entry)
  {
    var s' := Do(s, e);
    forall a {:trigger Member(sh, a)} | Member(sh, a) ensures CleanNode(s', sh, a) {
      assert CleanNode(s, sh, a);
      assert Backlog(s', a) == Backlog(s, a);
    }
    SameStreams(s, s');
    assert s'.udp == multiset{Packet(e.entry, Join(e.j, 0, 0))};
  }

  /** The message in event e is in hand, the ring around it is still. */
  lemma TokenDelivers(s: Net, sh: Shape, j: Id, m: Msg, b: Id, e: Event) returns (rest: Net)
    requires InOrder(s, sh, {j}) && OnlyMessage(s, m, b) && Member(sh, b) && Enabled(s, e)
    requires (External(e) ==> Quiescent(s)) && m.Join?
    ensures Delivers(e) && rest.nodes == s.nodes && InOrder(rest, sh, {j}) && Still(rest)
    ensures b in s.nodes && Do(s, e) == Receive(rest, b, m) && (SplitsAt(s, e) <==> Splits(rest, b, m))
    ensures Normal(rest, sh, map[]) && rest.nodes[b].mode == Running
    ensures m.src == j ==> InHand(rest, sh, map[], m)
  {
    hide Tiles, Receive, PopDown, PopUp, DataOk;
    OnlyReader(s, sh, {j}, m, b, e);
    RestIsStill(s, sh, {j}, m, b, e);
    rest := DeliveryOf(s, e).rest;
    assert CleanNode(s, sh, b);
    StillIsNormal(rest, sh, {j});
  }

  /** The node splits: the ring has the joiner behind it, and is relinking. */
  lemma TokenSplits(s: Net, sh: Shape, j: Id, m: Msg, b: Id, e: Event) returns (sh': Shape)
    requires InOrder(s, sh, {j}) && OnlyMessage(s, m, b) && Member(sh, b) && Enabled(s, e)
    requires (External(e) ==> Quiescent(s)) && m.Join? && m.src == j
    requires SplitsAt(s, e) && sh.lo[b] < sh.hi[b]
    ensures IsInsertion(sh, sh', b, j) && Settling(Do(s, e), sh')
  {
    var rest := TokenDelivers(s, sh, j, m, b, e);
    sh' := HandSplits(rest, sh, j, m, b);
    ReceiveKeys(rest, b, m);
  }

  lemma HandSplits(s: Net, sh: Shape, j: Id, m: Msg, b: Id) returns (sh': Shape)
    requires InOrder(s, sh, {j}) && Normal(s, sh, map[]) && InHand(s, sh, map[], m) && m.Join? && m.src == j
    requires Splits(s, b, m) && Member(sh, b) && sh.lo[b] < sh.hi[b]
    ensures IsInsertion(sh, sh', b, j) && Normal(Receive(s, b, m), sh', map[]) && sh'.nxt.Keys == s.nodes.Keys
  {
    assert CleanNode(s, sh, b);
    var loc';
    sh', loc' := HandlePlainOk(s, sh, map[], b, m);
    InsertionKeys(sh, sh', b, j);
  }

  lemma InsertionKeys(sh: Shape, sh': Shape, w: Id, j: Id)
    requires IsInsertion(sh, sh', w, j)
    ensures sh'.nxt.Keys == sh.nxt.Keys + {j}
  {
  }

  lemma ReceiveKeys(s: Net, b: Id, m: Msg)
    requires b in s.nodes
    ensures Receive(s, b, m).nodes.Keys == s.nodes.Keys
  {
    var (n', out) := React(s, b, m);
    EmitNodes(s, b, s.nodes[b], n', out);
  }

  /** The node passes the token on to its ring successor. */
  lemma TokenMoves(s: Net, sh: Shape, j: Id, m: Msg, b: Id, e: Event)
    requires InOrder(s, sh, {j}) && OnlyMessage(s, m, b) && Member(sh, b) && Enabled(s, e)
    requires (External(e) ==> Quiescent(s)) && m.Join? && m.src == j && |sh.order| > 1
    requires !SplitsAt(s, e)
    ensures b in s.nodes && Do(s, e).nodes == s.nodes
    ensures InOrder(Do(s, e), sh, {j}) && OnlyMessage(Do(s, e), PassOn(b, s.nodes[b], m), sh.nxt[b])
  {
    hide Quiescent, Enabled, Receive, Emit, DeliveryOf, Locals, Tiles, DataOk, SplitsAt, Tokens;
    var rest := TokenDelivers(s, sh, j, m, b, e);
    assert CleanNode(rest, sh, b);
    AloneIff(sh, b);
    TokenPassOk(rest, sh, map[], b, m);
    ForwardedIsOnly(rest, sh, {j}, PassOn(b, s.nodes[b], m), b);
  }

  /** The ring successor is the node the walk visits next. */
  lemma NextVisited(sh: Shape, i: nat, t: nat)
    requires Linked(sh) && i < |sh.order|
    ensures Member(sh, Visited(sh.order, i, t)) && sh.nxt[Visited(sh.order, i, t)] == Visited(sh.order, i, t + 1)
  {
    PosInRing(i, t, |sh.order|);
    PosInRing(i, t + 1, |sh.order|);
    assert sh.order[Pos(i, t, |sh.order|)] in sh.nxt;
  }

  /** Which node splits for a joiner: the only one, or the first of maximal span after the entry node. */
  ghost predicate Winner(sh: Shape, nodes: map<Id, Node>, i: nat, w: Id) {
    && Largest(sh, w) && sh.lo[w] < sh.hi[w] && i < |sh.order|
    && (|sh.order| > 1 ==> RingOf(sh.order, nodes)
                           && exists d: nat :: FirstMaximum(sh.order, nodes, i, d) && w == Visited(sh.order, i, d))
  }

  ghost predicate JoinResult(sh: Shape, sh': Shape, nodes: map<Id, Node>, j: Id, i: nat) {
    !Member(sh, j) && exists w :: Winner(sh, nodes, i, w) && IsInsertion(sh, sh', w, j)
  }

  /** Ranges in the shape and in the nodes. */
  lemma SpanIsSize(s: Net, sh: Shape, extra: set<Id>, i: nat, t: nat)
    requires InOrder(s, sh, extra) && |sh.order| > 1 && i < |sh.order| && RingOf(sh.order, s.nodes)
    ensures var b := Visited(sh.order, i, t);
            Member(sh, b) && b in sh.lo && b in sh.hi && SizeOf(sh, b) == SpanAt(sh.order, s.nodes, i, t) + 1
  {
    NextVisited(sh, i, t);
    assert CleanNode(s, sh, Visited(sh.order, i, t));
  }

  lemma MaximumIsLargest(s: Net, sh: Shape, extra: set<Id>, i: nat, d: nat)
    requires InOrder(s, sh, extra) && |sh.order| > 1 && i < |sh.order| && RingOf(sh.order, s.nodes)
    requires FirstMaximum(sh.order, s.nodes, i, d)
    ensures Largest(sh, Visited(sh.order, i, d))
  {
    SpanIsSize(s, sh, extra, i, d);
    forall b {:trigger Member(sh, b)} | Member(sh, b) && b in sh.lo && b in sh.hi
      ensures SizeOf(sh, b) <= SizeOf(sh, Visited(sh.order, i, d))
    {
      var x := IndexOf(sh, b);
      var u := Hops(i, x, |sh.order|);
      HopsReach(i, x, |sh.order|, u);
      SpanIsSize(s, sh, extra, i, u);
      assert SpanAt(sh.order, s.nodes, i, u) <= SpanAt(sh.order, s.nodes, i, d);
    }
  }

  /** A token that stops now for the first time has been passed on n + d times, d being the distance
      of the first maximum. */
  lemma StopIsFirst(order: seq<Id>, nodes: map<Id, Node>, j: Id, i: nat, t: nat) returns (d: nat)
    requires RingOf(order, nodes) && i < |order| && StopsAt(order, nodes, j, i, t)
    requires forall u: nat :: u < t ==> !StopsAt(order, nodes, j, i, u)
    ensures FirstMaximum(order, nodes, i, d) && SpanAt(order, nodes, i, d) > 0
    ensures t == |order| + d && Visited(order, i, t) == Visited(order, i, d)
  {
    d := FirstMaximumExists(order, nodes, i);
    TokenStopsIff(order, nodes, j, i);
    var x :| 0 <= x < |order| && Span(nodes[order[x]]) > 0;
    HopsReach(i, x, |order|, Hops(i, x, |order|));
    assert SpanAt(order, nodes, i, Hops(i, x, |order|)) <= SpanAt(order, nodes, i, d);
    TokenStops(order, nodes, j, i, d);
  }

  // ---- one step of a join ----

  lemma AloneSplits(s: Net, sh: Shape, j: Id, e: Event) returns (sh': Shape)
    requires TokenTravels(s, sh, j, 0, 0) && |sh.order| == 1 && Enabled(s, e) && (External(e) ==> Quiescent(s))
    ensures SplitsAt(s, e) && Settling(Do(s, e), sh') && JoinResult(sh, sh', s.nodes, j, 0)
  {
    hide Tiles, Handle, Receive, Do, OnlyMessage, TokensOn;
    var b := sh.order[0];
    var m := Join(j, 0, 0);
    assert Member(sh, b);
    var rest := TokenDelivers(s, sh, j, m, b, e);
    AloneIff(sh, b);
    assert CleanNode(rest, sh, b);
    sh' := TokenSplits(s, sh, j, m, b, e);
    AloneWins(sh, s.nodes, b);
  }

  lemma AloneWins(sh: Shape, nodes: map<Id, Node>, b: Id)
    requires ShapeOk(sh) && |sh.order| == 1 && Member(sh, b)
    ensures Winner(sh, nodes, 0, b)
  {
    AloneIff(sh, b);
    forall c {:trigger Member(sh, c)} | Member(sh, c) ensures c == b {
      var x := IndexOf(sh, b);
      var y := IndexOf(sh, c);
    }
  }

  lemma SplitsIffStops(s: Net, sh: Shape, j: Id, i: nat, t: nat, e: Event)
    requires TokenTravels(s, sh, j, i, t) && |sh.order| > 1 && Enabled(s, e) && (External(e) ==> Quiescent(s))
    ensures SplitsAt(s, e) <==> StopsAt(sh.order, s.nodes, j, i, t)
    ensures Member(sh, Visited(sh.order, i, t))
  {
    var m := TokenAfter(sh.order, s.nodes, j, i, t);
    var b := Visited(sh.order, i, t);
    NextVisited(sh, i, t);
    var rest := TokenDelivers(s, sh, j, m, b, e);
    assert CleanNode(rest, sh, b);
    AloneIff(sh, b);
  }

  lemma StopStep(s: Net, sh: Shape, j: Id, i: nat, t: nat, e: Event) returns (sh': Shape, d: nat)
    requires TokenTravels(s, sh, j, i, t) && |sh.order| > 1 && Enabled(s, e) && (External(e) ==> Quiescent(s))
    requires SplitsAt(s, e)
    ensures Settling(Do(s, e), sh') && JoinResult(sh, sh', s.nodes, j, i)
    ensures FirstMaximum(sh.order, s.nodes, i, d) && t == |sh.order| + d
  {
    SplitsIffStops(s, sh, j, i, t, e);
    d := StopIsFirst(sh.order, s.nodes, j, i, t);
    SpanIsSize(s, sh, {j}, i, d);
    MaximumIsLargest(s, sh, {j}, i, d);
    sh' := TokenSplits(s, sh, j, TokenAfter(sh.order, s.nodes, j, i, t), Visited(sh.order, i, t), e);
    assert Winner(sh, s.nodes, i, Visited(sh.order, i, t));
  }

  lemma PassStep(s: Net, sh: Shape, j: Id, i: nat, t: nat, e: Event)
    requires TokenTravels(s, sh, j, i, t) && |sh.order| > 1 && Enabled(s, e) && (External(e) ==> Quiescent(s))
    requires !SplitsAt(s, e)
    ensures Do(s, e).nodes == s.nodes && TokenTravels(Do(s, e), sh, j, i, t + 1)
  {
    SplitsIffStops(s, sh, j, i, t, e);
    TokenMoves(s, sh, j, TokenAfter(sh.order, s.nodes, j, i, t), Visited(sh.order, i, t), e);
    TravelsOn(s, Do(s, e), sh, j, i, t);
  }

  lemma TravelsOn(s: Net, s': Net, sh: Shape, j: Id, i: nat, t: nat)
    requires |sh.order| > 1 && Linked(sh) && i < |sh.order| && RingOf(sh.order, s.nodes) && s'.nodes == s.nodes
    requires forall u: nat :: u < t ==> !StopsAt(sh.order, s.nodes, j, i, u)
    requires !StopsAt(sh.order, s.nodes, j, i, t) && InOrder(s', sh, {j})
    requires var b := Visited(sh.order, i, t);
             b in s.nodes && b in sh.nxt
             && OnlyMessage(s', PassOn(b, s.nodes[b], TokenAfter(sh.order, s.nodes, j, i, t)), sh.nxt[b])
    ensures TokenTravels(s', sh, j, i, t + 1)
  {
    NextVisited(sh, i, t);
    assert Visited(sh.order, i, t + 1 - 1) == Visited(sh.order, i, t);
  }

  // ---- one step of a serial run without leaves ----

  /** How the ring changes in a step: not at all, or by a join. */
  ghost predicate RingStep(s: Net, ph: Phase, ph': Phase) {
    ph'.sh == ph.sh || (ph.Sought? && JoinResult(ph.sh, ph'.sh, s.nodes, ph.j, ph.i))
  }

  lemma SoughtStep(s: Net, ph: Phase, e: Event) returns (ph': Phase)
    requires ph.Sought? && PhaseInv(s, ph) && Enabled(s, e) && (External(e) ==> Quiescent(s))
    ensures PhaseInv(Do(s, e), ph') && !External(e)
    ensures if SplitsAt(s, e) then ph'.Steady? && JoinResult(ph.sh, ph'.sh, s.nodes, ph.j, ph.i)
            else ph' == ph.(t := ph.t + 1) && Do(s, e).nodes == s.nodes
  {
    hide IsInsertion, InOrder, Locals, Enabled, Handle, Tokens, Largest, OnlyMessage, Streams;
    if |ph.sh.order| == 1 {
      var sh' := AloneSplits(s, ph.sh, ph.j, e);
      ph' := Steady(sh');
    } else if SplitsAt(s, e) {
      var sh', d := StopStep(s, ph.sh, ph.j, ph.i, ph.t, e);
      ph' := Steady(sh');
    } else {
      PassStep(s, ph.sh, ph.j, ph.i, ph.t, e);
      ph' := ph.(t := ph.t + 1);
    }
    SoughtBusy(s, ph, e);
  }

  lemma SoughtBusy(s: Net, ph: Phase, e: Event)
    requires ph.Sought? && PhaseInv(s, ph) && Enabled(s, e) && (External(e) ==> Quiescent(s))
    ensures !External(e)
  {
    var m := if |ph.sh.order| == 1 then Join(ph.j, 0, 0) else TokenAfter(ph.sh.order, s.nodes, ph.j, ph.i, ph.t);
    var b := if |ph.sh.order| == 1 then ph.sh.order[0] else Visited(ph.sh.order, ph.i, ph.t);
    NotQuiescent(s, m, b);
  }

  lemma SteadyStep(s: Net, sh: Shape, e: Event) returns (ph': Phase)
    requires Settling(s, sh) && Enabled(s, e) && (External(e) ==> Quiescent(s)) && !e.LeaveStart?
    ensures PhaseInv(Do(s, e), ph') && ph'.sh == sh
  {
    hide Do, Linked, Tokens, Streams, Quiescent, TokenTravels, Enabled;
    if e.ClientSend? {
      QuietIsClean(s, sh, map[]);
      AskClean(s, sh, e);
      ph' := Asked(sh, e.m, e.dest);
    } else if e.JoinStart? {
      QuietIsClean(s, sh, map[]);
      var i := SeekStart(s, sh, e);
      ph' := Sought(sh, e.j, i, 0);
    } else {
      SettlingStep(s, sh, e);
      ph' := Steady(sh);
    }
  }

  lemma AskedPhaseStep(s: Net, sh: Shape, m: Msg, b: Id, e: Event) returns (ph': Phase)
    requires OnTheWay(s, sh, m, b) && Enabled(s, e) && (External(e) ==> Quiescent(s))
    ensures PhaseInv(Do(s, e), ph') && ph'.sh == sh
  {
    WayStep(s, sh, m, b, e);
    if Owns(s.nodes[b], m.k) {
      CleanSettles(Do(s, e), sh);
      ph' := Steady(sh);
    } else {
      ph' := Asked(sh, m, sh.nxt[b]);
    }
  }

  lemma PhaseStep(s: Net, ph: Phase, e: Event) returns (ph': Phase)
    requires PhaseInv(s, ph) && Enabled(s, e) && (External(e) ==> Quiescent(s)) && !e.LeaveStart?
    ensures PhaseInv(Do(s, e), ph') && RingStep(s, ph, ph')
  {
    match ph
    case Steady(sh) => ph' := SteadyStep(s, sh, e);
    case Asked(sh, m, b) => ph' := AskedPhaseStep(s, sh, m, b, e);
    case Sought(_, _, _, _) => ph' := SoughtStep(s, ph, e);
  }

  // ---- load balance over runs ----

  ghost predicate NoLeave(es: seq<Event>) {
    forall i :: 0 <= i < |es| ==> !es[i].LeaveStart?
  }

  lemma BalanceStep(s: Net, ph: Phase, ph': Phase)
    requires PhaseInv(s, ph) && RingStep(s, ph, ph') && Balanced(ph.sh)
    ensures Balanced(ph'.sh)
  {
    if ph'.sh != ph.sh {
      var w :| Winner(ph.sh, s.nodes, ph.i, w) && IsInsertion(ph.sh, ph'.sh, w, ph.j);
      SplitKeepsBalance(ph.sh, ph'.sh, w, ph.j);
    }
  }

  lemma {:induction false} BalancedRun(s: Net, ph: Phase, es: seq<Event>) returns (ph': Phase)
    requires PhaseInv(s, ph) && Balanced(ph.sh) && SerialRun(s, es) && NoLeave(es)
    ensures PhaseInv(After(s, es), ph') && Balanced(ph'.sh)
    decreases |es|
  {
    hide PhaseInv, Balanced, Enabled, Do, Quiescent, External;
    if es == [] {
      ph' := ph;
    } else {
      var ph1 := PhaseStep(s, ph, es[0]);
      BalanceStep(s, ph, ph1);
      assert NoLeave(es[1..]) by {
        forall i | 0 <= i < |es[1..]| ensures !es[1..][i].LeaveStart? {
          assert es[1..][i] == es[i + 1];
        }
      }
      ph' := BalancedRun(Do(s, es[0]), ph1, es[1..]);
    }
  }

  lemma QuietPhase(s: Net, ph: Phase)
    requires PhaseInv(s, ph) && Quiescent(s)
    ensures Clean(s, ph.sh)
  {
    match ph
    case Steady(sh) => QuietIsClean(s, sh, map[]);
    case Asked(sh, m, b) => NotQuiescent(s, m, b);
    case Sought(sh, j, i, t) =>
      NotQuiescent(s, if |sh.order| == 1 then Join(j, 0, 0) else TokenAfter(sh.order, s.nodes, j, i, t),
                      if |sh.order| == 1 then sh.order[0] else Visited(sh.order, i, t));
  }

  lemma CardinalityOfOrder(order: seq<Id>, ids: set<Id>)
    requires Distinct(order) && forall b :: b in order <==> b in ids
    ensures |ids| == |order|
  {
    if order == [] {
      assert ids == {};
    } else {
      var b := order[0];
      assert order == [b] + order[1..];
      assert b !in order[1..];
      CardinalityOfOrder(order[1..], ids - {b});
    }
  }

  lemma RingSize(s: Net, sh: Shape)
    requires Clean(s, sh)
    ensures |s.nodes| == |sh.order|
  {
    forall b ensures b in sh.order <==> b in s.nodes.Keys {
      assert Member(sh, b) ==> b in sh.order;
    }
    CardinalityOfOrder(sh.order, s.nodes.Keys);
    assert |s.nodes| == |s.nodes.Keys|;
  }

  /** The number of values in a node's range. */
  function Share(n: Node): int {
    Span(n) + 1
  }

  /** Load balance over whole runs: after any serial run of joins and client requests, all ranges
      hold 2^k or 2^(k + 1) values for some k, and the largest times the number of nodes is below 512. */
  lemma LoadBalance(id: Id, es: seq<Event>) returns (k: nat)
    requires id != 0 && SerialRun(Initial(id), es) && NoLeave(es) && Quiescent(After(Initial(id), es))
    ensures var s := After(Initial(id), es);
            forall b :: b in s.nodes ==>
              (Share(s.nodes[b]) == Pow2(k) || Share(s.nodes[b]) == Pow2(k + 1))
              && Share(s.nodes[b]) * |s.nodes| < 512
  {
    var sh0 := InitialClean(id);
    CleanSettles(Initial(id), sh0);
    AloneIsBalanced(sh0);
    var ph := BalancedRun(Initial(id), Steady(sh0), es);
    QuietPhase(After(Initial(id), es), ph);
    k := BalancedNodes(After(Initial(id), es), ph.sh);
  }

  lemma BalancedNodes(s: Net, sh: Shape) returns (k: nat)
    requires Clean(s, sh) && Balanced(sh)
    ensures forall b :: b in s.nodes ==>
              (Share(s.nodes[b]) == Pow2(k) || Share(s.nodes[b]) == Pow2(k + 1))
              && Share(s.nodes[b]) * |s.nodes| < 512
  {
    k :| BalancedBy(sh, k);
    RingSize(s, sh);
    forall b | b in s.nodes
      ensures Share(s.nodes[b]) == Pow2(k) || Share(s.nodes[b]) == Pow2(k + 1)
      ensures Share(s.nodes[b]) * |s.nodes| < 512
    {
      assert Member(sh, b) && CleanNode(s, sh, b);
      BalanceBounds(sh, b);
      assert Share(s.nodes[b]) == SizeOf(sh, b);
    }
  }
}
