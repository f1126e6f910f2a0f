/** The log of a node's socket operations, played on the network, is the step of the network model. */
module NetLog {
  import opened Base
  import opened NodeSpec
  import opened Network
  import opened CNode
  import opened NetTokens
  import opened NetMap

  /** The network, and what a node's two sockets are connected to. */
  datatype Ports = Ports(s: Net, succ: Option<Id>, pred: Option<Id>)

  /** One socket operation of node b. An answer leaves the ring; an error exit ends the process. */
  function PlayOne(p: Ports, b: Id, e: Effect): Ports {
    match e
    case ClosePred => Ports(if p.pred.Some? then CloseLink(p.s, p.pred.value, b) else p.s, p.succ, None)
    case CloseSucc => Ports(if p.succ.Some? then CloseLink(p.s, b, p.succ.value) else p.s, None, p.pred)
    case Connect(to) => Ports(Network.Connect(p.s, b, to), Some(to), p.pred)
    case ToSucc(m) => p.(s := if p.succ.Some? then PushDown(p.s, b, p.succ.value, [m]) else p.s)
    case ToPred(m) => p.(s := if p.pred.Some? then PushUp(p.s, p.pred.value, b, [m]) else p.s)
    case Answer(_) => p
    case ExitWithError => p
  }

  function Play(p: Ports, b: Id, es: seq<Effect>): Ports
    decreases |es|
  {
    if es == [] then p else Play(PlayOne(p, b, es[0]), b, es[1..])
  }

  lemma {:induction false} PlayConcat(p: Ports, b: Id, es: seq<Effect>, fs: seq<Effect>)
    ensures Play(p, b, es + fs) == Play(Play(p, b, es), b, fs)
    decreases |es|
  {
    hide PlayOne;
    if es == [] {
      assert es + fs == fs;
    } else {
      assert (es + fs)[1..] == es[1..] + fs;
      PlayConcat(PlayOne(p, b, es[0]), b, es[1..], fs);
    }
  }

  /** A write of several messages is one write after the other. */
  lemma DownTwice(s: Net, x: Id, y: Id, m: Msg, ms: seq<Msg>)
    ensures (if ms != [] then PushDown(PushDown(s, x, y, [m]), x, y, ms) else PushDown(s, x, y, [m]))
            == PushDown(s, x, y, [m] + ms)
  {
    assert ms == [] ==> [m] + ms == [m];
    assert Down(s, x, y) + [m] + ms == Down(s, x, y) + ([m] + ms);
    assert s.down[(x, y) := Down(s, x, y) + [m]][(x, y) := Down(s, x, y) + ([m] + ms)]
        == s.down[(x, y) := Down(s, x, y) + ([m] + ms)];
  }

  lemma UpTwice(s: Net, x: Id, y: Id, m: Msg, ms: seq<Msg>)
    ensures (if ms != [] then PushUp(PushUp(s, x, y, [m]), x, y, ms) else PushUp(s, x, y, [m]))
            == PushUp(s, x, y, [m] + ms)
  {
    assert ms == [] ==> [m] + ms == [m];
    assert Up(s, x, y) + [m] + ms == Up(s, x, y) + ([m] + ms);
    assert s.up[(x, y) := Up(s, x, y) + [m]][(x, y) := Up(s, x, y) + ([m] + ms)]
        == s.up[(x, y) := Up(s, x, y) + ([m] + ms)];
  }

  lemma PlayHead(p: Ports, b: Id, e: Effect, es: seq<Effect>)
    ensures Play(p, b, []) == p && Play(p, b, [e] + es) == Play(PlayOne(p, b, e), b, es)
  {
    hide PlayOne;
    assert ([e] + es)[1..] == es;
  }

  lemma {:induction false} PlayDown(p: Ports, b: Id, ms: seq<Msg>)
    ensures Play(p, b, ToSuccs(ms)) ==
            p.(s := if ms != [] && p.succ.Some? then PushDown(p.s, b, p.succ.value, ms) else p.s)
    decreases |ms|
  {
    hide Play, PushDown, PushUp, Network.Connect, CloseLink;
    PlayHead(p, b, ClosePred, []);
    if ms != [] {
      PlayHead(p, b, ToSucc(ms[0]), ToSuccs(ms[1..]));
      PlayDown(PlayOne(p, b, ToSucc(ms[0])), b, ms[1..]);
      assert ms == [ms[0]] + ms[1..];
      if p.succ.Some? {
        DownTwice(p.s, b, p.succ.value, ms[0], ms[1..]);
      }
    }
  }

  lemma {:induction false} PlayUp(p: Ports, b: Id, ms: seq<Msg>)
    ensures Play(p, b, ToPreds(ms)) ==
            p.(s := if ms != [] && p.pred.Some? then PushUp(p.s, p.pred.value, b, ms) else p.s)
    decreases |ms|
  {
    hide Play, PushDown, PushUp, Network.Connect, CloseLink;
    PlayHead(p, b, ClosePred, []);
    if ms != [] {
      PlayHead(p, b, ToPred(ms[0]), ToPreds(ms[1..]));
      PlayUp(PlayOne(p, b, ToPred(ms[0])), b, ms[1..]);
      assert ms == [ms[0]] + ms[1..];
      if p.pred.Some? {
        UpTwice(p.s, p.pred.value, b, ms[0], ms[1..]);
      }
    }
  }

  /** What a handler's effects leave in the node's sockets is what the new node says. */
  ghost predicate Regular(n: Node, n': Node, out: Out) {
    && (out.connect ==> n'.succ.Some?)
    && (!out.connect ==> n'.succ == if out.dropSucc then None else n.succ)
    && n'.pred == (if out.dropPred then None else n.pred)
    && (out.dropSucc ==> out.before == []) && (out.dropPred ==> out.back == [])
  }

  lemma PlayIf(p: Ports, b: Id, c: bool, e: Effect)
    ensures Play(p, b, if c then [e] else []) == if c then PlayOne(p, b, e) else p
  {
    assert [e][1..] == [];
    assert Play(PlayOne(p, b, e), b, []) == PlayOne(p, b, e);
  }

  /** The two halves of a handler's effects: sockets closed, the farewell to the old successor, and a new
      connection; then what is written. */
  function Opening(n': Node, out: Out): seq<Effect> {
    (((if out.dropPred then [ClosePred] else []) + (if out.dropSucc then [CloseSucc] else [])) + ToSuccs(out.before))
    + (if out.connect && n'.succ.Some? then [Effect.Connect(n'.succ.value)] else [])
  }

  function Writing(out: Out): seq<Effect> {
    (ToSuccs(out.after) + ToPreds(out.back)) + (if out.reply.Some? then [Answer(out.reply.value)] else [])
  }

  lemma EffectParts(n': Node, out: Out)
    requires !out.fault
    ensures Effects(n', out) == Opening(n', out) + Writing(out)
  {
    hide ToSuccs, ToPreds;
  }

  /** The sockets after the first half. */
  function Opened(p: Ports, b: Id, n': Node, out: Out): Ports {
    var s1 := if out.dropPred && p.pred.Some? then CloseLink(p.s, p.pred.value, b) else p.s;
    var s2 := if out.dropSucc && p.succ.Some? then CloseLink(s1, b, p.succ.value) else s1;
    var s3 := if out.before != [] && p.succ.Some? then PushDown(s2, b, p.succ.value, out.before) else s2;
    var s4 := if out.connect && n'.succ.Some? then Network.Connect(s3, b, n'.succ.value) else s3;
    Ports(s4, if out.connect && n'.succ.Some? then n'.succ else if out.dropSucc then None else p.succ,
          if out.dropPred then None else p.pred)
  }

  lemma PlayOpening(p: Ports, b: Id, n': Node, out: Out)
    requires out.dropSucc ==> out.before == []
    ensures Play(p, b, Opening(n', out)) == Opened(p, b, n', out)
  {
    hide Network.Connect, CloseLink, PushDown, ToSuccs;
    var e1 := if out.dropPred then [ClosePred] else [];
    var e2 := if out.dropSucc then [CloseSucc] else [];
    var e3 := ToSuccs(out.before);
    var e4 := if out.connect && n'.succ.Some? then [Effect.Connect(n'.succ.value)] else [];
    PlayConcat(p, b, e1 + e2 + e3, e4);
    PlayConcat(p, b, e1 + e2, e3);
    PlayConcat(p, b, e1, e2);
    PlayIf(p, b, out.dropPred, ClosePred);
    var p1 := Play(p, b, e1);
    PlayIf(p1, b, out.dropSucc, CloseSucc);
    var p2 := Play(p1, b, e2);
    PlayDown(p2, b, out.before);
    var p3 := Play(p2, b, e3);
    if out.connect && n'.succ.Some? {
      PlayIf(p3, b, true, Effect.Connect(n'.succ.value));
    } else {
      PlayIf(p3, b, false, ClosePred);
    }
  }

  /** The network after the second half. */
  function Written(p: Ports, b: Id, out: Out): Net {
    var s5 := if out.after != [] && p.succ.Some? then PushDown(p.s, b, p.succ.value, out.after) else p.s;
    if out.back != [] && p.pred.Some? then PushUp(s5, p.pred.value, b, out.back) else s5
  }

  lemma PlayWriting(p: Ports, b: Id, out: Out)
    ensures Play(p, b, Writing(out)) == p.(s := Written(p, b, out))
  {
    hide PushDown, PushUp, ToSuccs, ToPreds;
    var e5, e6 := ToSuccs(out.after), ToPreds(out.back);
    var e7 := if out.reply.Some? then [Answer(out.reply.value)] else [];
    PlayConcat(p, b, e5 + e6, e7);
    PlayConcat(p, b, e5, e6);
    PlayDown(p, b, out.after);
    var p5 := Play(p, b, e5);
    PlayUp(p5, b, out.back);
    var p6 := Play(p5, b, e6);
    if out.reply.Some? {
      PlayIf(p6, b, true, Answer(out.reply.value));
    } else {
      PlayIf(p6, b, false, ClosePred);
    }
  }

  lemma EmitParts(s: Net, b: Id, n: Node, n': Node, out: Out)
    requires Regular(n, n', out)
    ensures var p := Opened(Ports(s, n.succ, n.pred), b, n', out);
            && p.succ == n'.succ && p.pred == n'.pred
            && Emit(s, b, n, n', out) == Written(p, b, out).(nodes := s.nodes[b := n'])
  {
    hide Network.Connect, CloseLink, PushDown, PushUp;
    EmitNodes(s, b, n, n', out);
  }

  /** The log of a handler, played from the node's sockets, is what the network model emits, and the sockets
      are then connected as the new node says. */
  lemma LogIsEmit(s: Net, b: Id, n: Node, n': Node, out: Out)
    requires !out.fault && Regular(n, n', out)
    ensures var p := Play(Ports(s, n.succ, n.pred), b, Effects(n', out));
            && p.s.(nodes := s.nodes[b := n']) == Emit(s, b, n, n', out)
            && p.succ == n'.succ && p.pred == n'.pred
  {
    hide Opened, Written, Opening, Writing, Effects, Emit;
    var p0 := Ports(s, n.succ, n.pred);
    EffectParts(n', out);
    PlayConcat(p0, b, Opening(n', out), Writing(out));
    PlayOpening(p0, b, n', out);
    PlayWriting(Opened(p0, b, n', out), b, out);
    EmitParts(s, b, n, n', out);
  }

  lemma HandlersAreRegular(b: Id, n: Node, m: Msg)
    ensures var r := Handle(b, n, m); !r.1.fault ==> Regular(n, r.0, r.1)
    ensures var r := HandleJoinResponse(n, m); n.succ == None && !r.1.fault ==> Regular(n, r.0, r.1)
    ensures var r := OfferRange(n); Regular(n, r.0, r.1) && !r.1.fault
  {
    hide Handover;
  }

  /** One step of the network is what the handler does to its sockets, one operation after the other. */
  lemma StepIsLog(s: Net, b: Id, m: Msg)
    requires b in s.nodes && !React(s, b, m).1.fault && (s.nodes[b].mode == JoinWait ==> s.nodes[b].succ == None)
    ensures var n, (n', out) := s.nodes[b], React(s, b, m);
            var p := Play(Ports(s, n.succ, n.pred), b, Effects(n', out));
            && Receive(s, b, m) == p.s.(nodes := s.nodes[b := n'])
            && p.succ == n'.succ && p.pred == n'.pred
  {
    hide Handle, HandleJoinResponse, Emit, Effects, Play, Regular;
    HandlersAreRegular(b, s.nodes[b], m);
    var (n', out) := React(s, b, m);
    LogIsEmit(s, b, s.nodes[b], n', out);
  }

  // ---- answers ----

  /** The answers to clients in a log. */
  function AnswersIn(log: seq<Effect>): seq<Reply> {
    if log == [] then [] else (if log[0].Answer? then [log[0].r] else []) + AnswersIn(log[1..])
  }

  lemma {:induction false} AnswersConcat(a: seq<Effect>, b: seq<Effect>)
    ensures AnswersIn(a + b) == AnswersIn(a) + AnswersIn(b)
  {
    if a == [] {
      assert a + b == b;
    } else {
      assert (a + b)[0] == a[0] && (a + b)[1..] == a[1..] + b;
      AnswersConcat(a[1..], b);
    }
  }

  lemma {:induction false} WritesAnswerNobody(ms: seq<Msg>)
    ensures AnswersIn(ToSuccs(ms)) == [] && AnswersIn(ToPreds(ms)) == []
  {
    if ms != [] {
      assert ToSuccs(ms)[1..] == ToSuccs(ms[1..]) && ToPreds(ms)[1..] == ToPreds(ms[1..]);
      WritesAnswerNobody(ms[1..]);
    }
  }

  lemma OneAnswer(e: Effect)
    ensures AnswersIn([]) == [] && AnswersIn([e]) == if e.Answer? then [e.r] else []
  {
  }

  /** A handler answers a client exactly if its function has a reply, and exactly once. */
  lemma AnswersAreReplies(n': Node, out: Out)
    requires !out.fault
    ensures AnswersIn(Effects(n', out)) == OneReply(out)
  {
    hide AnswersIn, ToSuccs, ToPreds, Effects;
    EffectParts(n', out);
    AnswersConcat(Opening(n', out), Writing(out));
    OpeningAnswersNobody(n', out);
    AnswersConcat(ToSuccs(out.after) + ToPreds(out.back), if out.reply.Some? then [Answer(out.reply.value)] else []);
    AnswersConcat(ToSuccs(out.after), ToPreds(out.back));
    WritesAnswerNobody(out.after);
    WritesAnswerNobody(out.back);
    OneAnswer(if out.reply.Some? then Answer(out.reply.value) else ClosePred);
  }

  lemma OpeningAnswersNobody(n': Node, out: Out)
    ensures AnswersIn(Opening(n', out)) == []
  {
    hide AnswersIn, ToSuccs;
    var e1 := if out.dropPred then [ClosePred] else [];
    var e2 := if out.dropSucc then [CloseSucc] else [];
    var e4 := if out.connect && n'.succ.Some? then [Effect.Connect(n'.succ.value)] else [];
    AnswersConcat(e1 + e2 + ToSuccs(out.before), e4);
    AnswersConcat(e1 + e2, ToSuccs(out.before));
    AnswersConcat(e1, e2);
    WritesAnswerNobody(out.before);
    OneAnswer(ClosePred);
    OneAnswer(CloseSucc);
    OneAnswer(Effect.Connect(if n'.succ.Some? then n'.succ.value else 0));
  }

  // ---- error exits ----

  lemma ExitIffFault(n': Node, out: Out)
    ensures ExitWithError in Effects(n', out) <==> out.fault
  {
    hide ToSuccs, ToPreds;
    WritesAreNoExit(out.before);
    WritesAreNoExit(out.after);
    WritesAreNoExit(out.back);
  }

  /** A fault of the network model is an error exit in the log of the node that the event is handed to, and
      nothing else: what "no run faults" is about. */
  lemma FaultIsExit(s: Net, e: Event)
    requires Enabled(s, e)
    ensures Faults(s, e) <==>
            && Delivers(e)
            && var d := DeliveryOf(s, e);
               if s.nodes[d.b].mode == LeaveWait then ExitWithError in Goodbye(s.nodes[d.b], d.m)
               else var (n', out) := React(s, d.b, d.m); ExitWithError in Effects(n', out)
  {
    hide Handle, HandleJoinResponse, Goodbye, Farewell, Effects;
    if Delivers(e) {
      var d := DeliveryOf(s, e);
      if s.nodes[d.b].mode == LeaveWait {
        GoodbyeIsFarewell(s.nodes[d.b], d.m);
      } else {
        var (n', out) := React(s, d.b, d.m);
        ExitIffFault(n', out);
      }
    }
  }

  // ---- the leaver's goodbye ----

  ghost predicate OnlyWrites(log: seq<Effect>) {
    forall i :: 0 <= i < |log| ==> log[i].ToSucc? || log[i].ToPred?
  }

  function BothWritten(p: Ports, b: Id, ds: seq<Msg>, us: seq<Msg>): Net {
    var s := if ds != [] && p.succ.Some? then PushDown(p.s, b, p.succ.value, ds) else p.s;
    if us != [] && p.pred.Some? then PushUp(s, p.pred.value, b, us) else s
  }

  lemma DownFirst(p: Ports, b: Id, m: Msg, ds: seq<Msg>, us: seq<Msg>)
    ensures BothWritten(PlayOne(p, b, ToSucc(m)), b, ds, us) == BothWritten(p, b, [m] + ds, us)
  {
    hide PushUp, PushDown;
    if p.succ.Some? {
      DownTwice(p.s, b, p.succ.value, m, ds);
      assert ds == [] ==> [m] + ds == [m];
    }
  }

  lemma UpFirst(p: Ports, b: Id, m: Msg, ds: seq<Msg>, us: seq<Msg>)
    ensures BothWritten(PlayOne(p, b, ToPred(m)), b, ds, us) == BothWritten(p, b, ds, [m] + us)
  {
    if p.pred.Some? {
      var s := if ds != [] && p.succ.Some? then PushDown(p.s, b, p.succ.value, ds) else p.s;
      UpTwice(s, p.pred.value, b, m, us);
      UpThenDown(p, b, m, ds);
      assert us == [] ==> [m] + us == [m];
    }
  }

  /** Writes on different links do not meet. */
  lemma UpThenDown(p: Ports, b: Id, m: Msg, ds: seq<Msg>)
    requires p.pred.Some?
    ensures p.succ.Some? ==> PushDown(PushUp(p.s, p.pred.value, b, [m]), b, p.succ.value, ds)
                             == PushUp(PushDown(p.s, b, p.succ.value, ds), p.pred.value, b, [m])
  {
  }

  /** Only the order on each link counts. */
  lemma {:induction false} PlayLinks(p: Ports, b: Id, log: seq<Effect>)
    requires OnlyWrites(log)
    ensures Play(p, b, log) == p.(s := BothWritten(p, b, OnSucc(log), OnPred(log)))
    decreases |log|
  {
    hide BothWritten;
    if log == [] {
      NothingWritten(p, b);
    } else {
      PlayLinks(PlayOne(p, b, log[0]), b, log[1..]);
      if log[0].ToSucc? {
        DownFirst(p, b, log[0].m, OnSucc(log[1..]), OnPred(log[1..]));
        assert OnPred(log) == OnPred(log[1..]);
      } else {
        UpFirst(p, b, log[0].m, OnSucc(log[1..]), OnPred(log[1..]));
        assert OnSucc(log) == OnSucc(log[1..]);
      }
    }
  }

  lemma NothingWritten(p: Ports, b: Id)
    ensures BothWritten(p, b, [], []) == p.s
  {
  }

  lemma {:induction false} WritesOnly(ms: seq<Msg>)
    ensures OnlyWrites(ToSuccs(ms)) && OnlyWrites(ToPreds(ms))
  {
    if ms != [] {
      WritesOnly(ms[1..]);
    }
  }

  lemma WritesKeepQueues(p: Ports, b: Id, ds: seq<Msg>, us: seq<Msg>)
    ensures BothWritten(p, b, ds, us).backlog == p.s.backlog
  {
  }

  lemma FarewellIsWritten(s: Net, b: Id, n: Node)
    ensures var out, p := Farewell(n, NewRangeResponse), Ports(s, n.succ, n.pred);
            && Emit(s, b, n, n, out) == BothWritten(p, b, out.after, out.back).(nodes := s.nodes[b := n])
            && BothWritten(p, b, out.after, out.back).backlog == s.backlog
  {
    hide Inserts, Emit, PushDown, PushUp;
    var out := Farewell(n, NewRangeResponse);
    EmitParts(s, b, n, n, out);
    WritesKeepQueues(Ports(s, n.succ, n.pred), b, out.after, out.back);
  }

  /** What shutdown_proceedure writes, played on the network, is the departure of the network model. */
  lemma GoodbyeIsDepart(s: Net, b: Id)
    requires b in s.nodes
    ensures var n := s.nodes[b];
            var p := Play(Ports(s, n.succ, n.pred), b, Goodbye(n, NewRangeResponse));
            Depart(s, b, NewRangeResponse) == p.s.(nodes := s.nodes - {b}, backlog := s.backlog - {b})
  {
    hide Inserts, ToSuccs, ToPreds, OnSucc, OnPred, Play, BothWritten, Emit;
    var n := s.nodes[b];
    WritesOnly(Inserts(n.store.keys, n.store.vals));
    PlayLinks(Ports(s, n.succ, n.pred), b, Goodbye(n, NewRangeResponse));
    GoodbyeIsFarewell(n, NewRangeResponse);
    FarewellIsWritten(s, b, n);
    assert s.nodes[b := n] == s.nodes;
  }
}
