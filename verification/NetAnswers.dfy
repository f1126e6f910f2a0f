/** Whole runs in which requests, joins and leaves overlap: the answers and the contents are those of one
    map, exactly as long as no request overtakes a transfer of its key. */
module NetAnswers {
  import opened Base
  import opened NodeSpec
  import opened Network
  import opened Ring
  import opened NetInv
  import opened NetSteps
  import opened NetCore
  import opened NetData
  import opened NetLeave
  import opened NetTheorems
  import opened NetTokens
  import opened NetRuns
  import opened NetSingle
  import opened NetMap
  import opened NetBooks
  import opened NetEnds
  import opened NetAsk

  // ---- the books say what the network holds ----

  lemma TransferKnown(s: Net, sh: Shape, loc: map<Id, Loc>, t: Table, k: Ssn, v: Value)
    requires Normal(s, sh, loc) && Books(s, sh, t, None) && NoUdpAsk(s)
    ensures Carried(s, Insert(k, v)) <==> k in t && t[k] == v && !KeyStored(s, k)
  {
    hide Normal, KeyStored;
    RestCarries(s, sh, loc, Insert(k, v));
    assert InFlight(s, sh, Insert(k, v)) == Due(s, t, Insert(k, v)) + One(None, Insert(k, v));
  }

  /** Every copy is an entry of the map, and every entry has a copy. */
  lemma BooksCoherent(s: Net, sh: Shape, loc: map<Id, Loc>, t: Table)
    requires Normal(s, sh, loc) && Told(s, sh, t, None)
    ensures Coherent(s, t)
  {
    hide Normal, InFlight, Carried;
    forall k, v {:trigger Copy(s, k, v)} | Copy(s, k, v) ensures k in t && t[k] == v {
      TransferKnown(s, sh, loc, t, k, v);
      if Stored(s, k, v) {
        var b :| b in s.nodes && HoldsAt(s.nodes[b], k, v);
        assert k in s.nodes[b].store.vals;
      }
    }
    forall k {:trigger Present(s, k)} | k in t ensures Present(s, k) {
      TransferKnown(s, sh, loc, t, k, t[k]);
      if KeyStored(s, k) {
        var b :| b in s.nodes && k in s.nodes[b].store.vals;
        assert HoldsAt(s.nodes[b], k, t[k]);
      }
      assert Copy(s, k, t[k]);
    }
  }

  lemma NothingInFlight(s: Net, sh: Shape, loc: map<Id, Loc>, m: Msg)
    requires Normal(s, sh, loc) && Quiescent(s)
    ensures InFlight(s, sh, m) == 0 && !Carried(s, m)
  {
    hide Normal;
    InFlightIff(s, sh, loc, m);
  }

  lemma AskInFlight(s: Net, sh: Shape, t: Table, ask: Option<Msg>)
    requires Told(s, sh, t, ask)
    ensures ask.Some? ==> s.udp != multiset{} || InFlight(s, sh, ask.value) > 0
  {
    hide InFlight, StoredRight, Due;
    if ask.Some? {
      var m := ask.value;
      if p :| OnlyAsk(s, p, m) {
        assert p in s.udp;
      } else {
        assert InFlight(s, sh, m) == Due(s, t, m) + One(ask, m);
      }
    }
  }

  /** In a quiet network nobody waits for an answer. */
  lemma QuietTold(s: Net, sh: Shape, loc: map<Id, Loc>, t: Table, ask: Option<Msg>)
    requires Normal(s, sh, loc) && Quiescent(s) && Told(s, sh, t, ask)
    ensures ask == None && Coherent(s, t) && NoAsk(s)
  {
    hide Normal, InFlight, Coherent, Told;
    AskInFlight(s, sh, t, ask);
    forall m ensures InFlight(s, sh, m) == 0 && !Carried(s, m) {
      NothingInFlight(s, sh, loc, m);
    }
    BooksCoherent(s, sh, loc, t);
  }

  lemma CoherentRight(s: Net, t: Table)
    requires Coherent(s, t)
    ensures StoredRight(s, t)
  {
    hide Carried;
    forall b, k {:trigger k in s.nodes[b].store.vals} | b in s.nodes && k in s.nodes[b].store.vals
      ensures k in t && s.nodes[b].store.vals[k] == t[k]
    {
      assert HoldsAt(s.nodes[b], k, s.nodes[b].store.vals[k]);
      assert Copy(s, k, s.nodes[b].store.vals[k]);
    }
  }

  lemma CoherentStores(s: Net, t: Table, k: Ssn)
    requires Coherent(s, t) && k in t && forall m :: !Carried(s, m)
    ensures KeyStored(s, k)
  {
    hide Carried;
    assert Present(s, k);
    var v :| Copy(s, k, v);
    var b :| b in s.nodes && HoldsAt(s.nodes[b], k, v);
  }

  lemma CoherentTold(s: Net, sh: Shape, loc: map<Id, Loc>, t: Table)
    requires Normal(s, sh, loc) && Quiescent(s) && Coherent(s, t)
    ensures Told(s, sh, t, None)
  {
    hide Normal, InFlight, Carried, Coherent, StoredRight, KeyStored;
    forall m ensures InFlight(s, sh, m) == 0 && !Carried(s, m) {
      NothingInFlight(s, sh, loc, m);
    }
    CoherentRight(s, t);
    forall k | k in t ensures KeyStored(s, k) {
      CoherentStores(s, t, k);
    }
  }

  // ---- every step ----

  ghost predicate AskInv(s: Net, t: Table, ask: Option<Msg>) {
    && Inv(s)
    && if s.leaving then ask.None? && Coherent(s, t) && NoAsk(s)
       else exists sh, loc :: Normal(s, sh, loc) && Told(s, sh, t, ask)
  }

  /** During a leave nobody asks, and entries only move. */
  lemma LeavingAskStep(s: Net, t: Table, e: Event)
    requires Inv(s) && Coherent(s, t) && NoAsk(s) && Enabled(s, e) && SplitGuard(s, e)
    requires s.leaving || e.LeaveStart?
    ensures AskInv(Do(s, e), t, None) && Track(s, None, e) == None && ReplyIn(s, e) == []
  {
    hide Inv, Normal, Told, Coherent, NoAsk, Do, SplitGuard;
    LeavingEvents(s, e);
    InvStep(s, e);
    QuietStep(s, t, e);
    NoReply(s, e);
    if e.LeaveDone? {
      DoneQuiet(s, e);
      var sh, loc := NormalUnlessLeaving(Do(s, e));
      CoherentTold(Do(s, e), sh, loc, t);
    } else {
      LeavingKept(s, e);
    }
  }

  lemma LeavingEvents(s: Net, e: Event)
    requires Enabled(s, e) && (s.leaving || e.LeaveStart?)
    ensures !e.ClientSend?
  {
  }

  lemma DoneQuiet(s: Net, e: Event)
    requires Enabled(s, e) && e.LeaveDone?
    ensures !Do(s, e).leaving && Quiescent(Do(s, e))
  {
    var s' := Do(s, e);
    forall x: Id, y: Id ensures Down(s', x, y) == [] && Up(s', x, y) == [] {
      assert Down(s', x, y) == Down(s, x, y) && Up(s', x, y) == Up(s, x, y);
    }
    forall b | b in s'.nodes ensures s'.nodes[b].mode == Running && Backlog(s', b) == [] {
      assert Backlog(s', b) == Backlog(s, b);
    }
  }

  /** Every step keeps the books, and answers from the map. */
  lemma AskStep(s: Net, t: Table, ask: Option<Msg>, e: Event)
    requires AskInv(s, t, ask) && Enabled(s, e) && SplitGuard(s, e)
    requires (e.ClientSend? ==> ask.None?) && (ask.Some? ==> !Overtakes(s, e, ask.value))
    ensures var ask' := Track(s, ask, e);
            AskInv(Do(s, e), MapAfter(t, ask, ask'), ask') && ReplyIn(s, e) == ReplyAfter(t, ask, ask')
  {
    hide Inv, Normal, Told, Coherent, NoAsk, Do, SplitGuard, Overtakes, Track, ReplyIn;
    if s.leaving {
      LeavingAskStep(s, t, e);
    } else {
      var sh, loc :| Normal(s, sh, loc) && Told(s, sh, t, ask);
      if e.LeaveStart? {
        StartsQuiet(s, e);
        QuietTold(s, sh, loc, t, ask);
        LeavingAskStep(s, t, e);
      } else {
        InvStep(s, e);
        var sh', loc' := NormalAskStep(s, sh, loc, e, t, ask);
        NormalNotLeaving(Do(s, e), sh', loc');
      }
    }
  }

  lemma StartsQuiet(s: Net, e: Event)
    requires Enabled(s, e) && e.LeaveStart?
    ensures Quiescent(s)
  {
  }

  // ---- whole runs ----

  /** The map with the request that is on its way. */
  function Total(t: Table, ask: Option<Msg>): Table {
    if ask.Some? then Apply(t, ask.value) else t
  }

  lemma TotalStep(s: Net, t: Table, ask: Option<Msg>, e: Event)
    requires Enabled(s, e) && (e.ClientSend? ==> ask.None?)
    ensures var ask' := Track(s, ask, e);
            var total, total' := Total(t, ask), Total(MapAfter(t, ask, ask'), ask');
            && total' == TableStep(total, e)
            && Tally(ReplyAfter(t, ask, ask'), Pending(total', ask'), Pending(total, ask), AnswerStep(total, e))
  {
    hide Settles, Enabled;
    if e.ClientSend? {
      AnswerSame(t, e.m);
      TallyCases(AnswerTo(t, e.m));
    } else if ask.Some? {
      AnswerSame(t, ask.value);
      TallyCases(AnswerTo(t, ask.value));
    }
  }

  /** The request that is on its way after a run. */
  ghost function AskAfter(s: Net, ask: Option<Msg>, es: seq<Event>): Option<Msg>
    requires IsRun(s, es)
    decreases |es|
  {
    if es == [] then ask else AskAfter(Do(s, es[0]), Track(s, ask, es[0]), es[1..])
  }

  lemma {:induction false} AskRunMap(s: Net, t: Table, ask: Option<Msg>, es: seq<Event>)
    returns (t': Table, ask': Option<Msg>)
    requires AskInv(s, t, ask) && AskingRun(s, ask, es)
    ensures ask' == AskAfter(s, ask, es)
    ensures AskInv(After(s, es), t', ask') && Total(t', ask') == TableAfter(Total(t, ask), es)
    ensures Tally(Replies(s, es), Pending(Total(t', ask'), ask'),
                  Pending(Total(t, ask), ask), Answers(Total(t, ask), es))
    decreases |es|
  {
    hide AskInv, Enabled, Do, SplitGuard, Overtakes, Track, ReplyIn,
         Pending, AnswerStep, TableStep, ReplyAfter, MapAfter, Total;
    if es == [] {
      t', ask' := t, ask;
      TallyCases(Pending(Total(t, ask), ask));
    } else {
      var e := es[0];
      var ask1 := Track(s, ask, e);
      var t1 := MapAfter(t, ask, ask1);
      AskStep(s, t, ask, e);
      TotalStep(s, t, ask, e);
      t', ask' := AskRunMap(Do(s, e), t1, ask1, es[1..]);
      TallyChain(ReplyIn(s, e), Pending(Total(t1, ask1), ask1), Pending(Total(t, ask), ask),
                 AnswerStep(Total(t, ask), e),
                 Replies(Do(s, e), es[1..]), Pending(Total(t', ask'), ask'), Answers(Total(t1, ask1), es[1..]));
    }
  }

  lemma InitialAsk(id: Id)
    requires id != 0
    ensures AskInv(Initial(id), map[], None)
  {
    var s := Initial(id);
    var sh := InitialClean(id);
    CleanIsNormal(s, sh);
    forall t: Msg ensures !Carried(s, t) {
      NothingCarried(id, t);
    }
    InitialQuiet(id);
    forall k, v ensures !Copy(s, k, v) {}
    CoherentTold(s, sh, map[], map[]);
  }

  lemma InitialQuiet(id: Id)
    ensures Quiescent(Initial(id))
  {
  }

  lemma AskEnd(s: Net, t: Table, ask: Option<Msg>)
    requires AskInv(s, t, ask) && Quiescent(s) && !s.leaving
    ensures ask == None && Agrees(s, t)
  {
    hide Inv, Normal, Told, Quiescent, Coherent, NoAsk, Agrees;
    var sh, loc :| Normal(s, sh, loc) && Told(s, sh, t, ask);
    QuietTold(s, sh, loc, t, ask);
    QuietIsClean(s, sh, loc);
    CoherentAgrees(s, sh, t);
  }

  /** The ring is a map while joins are in progress. Let any number of nodes join at any time, and clients
      send requests at any time, one when the one before has been handled; let no request overtake a transfer
      of its key. Then whenever the network is quiet, the answers clients have got are those of one map that
      went through the same requests, and every node holds the part of the map that hashes into its range. */
  lemma MapWhileJoining(id: Id, es: seq<Event>)
    requires id != 0 && AskingRun(Initial(id), None, es)
    requires var s := After(Initial(id), es); Quiescent(s) && !s.leaving
    ensures Replies(Initial(id), es) == Answers(map[], es)
    ensures Agrees(After(Initial(id), es), TableAfter(map[], es))
  {
    hide AskInv, Quiescent, Agrees, Initial;
    InitialAsk(id);
    var t, ask := AskRunMap(Initial(id), map[], None, es);
    AskEnd(After(Initial(id), es), t, ask);
    TallyEnd(Replies(Initial(id), es), Answers(map[], es));
  }

  // ---- exactly ----

  /** A request that overtakes a transfer of its key finds the entry nowhere. */
  lemma OvertakenEntry(s: Net, sh: Shape, loc: map<Id, Loc>, e: Event, rest: Net, b: Id, m: Msg,
                       t: Table, ask: Option<Msg>, extra: Option<Msg>) returns (v: Value)
    requires Handing(s, sh, loc, e, rest, b, m) && BooksHand(rest, sh, t, extra, m) && BagTold(rest, ask, extra)
    requires ask == Some(m) && Overtakes(s, e, m)
    ensures m.k in t && t[m.k] == v && !KeyStored(rest, m.k) && m != Insert(m.k, v) && Carried(rest, Insert(m.k, v))
    ensures IsRequest(m) && Owns(s.nodes[b], m.k)
  {
    hide Normal, Do, Receive, SplitGuard, Owns, Carried, KeyStored, InFlight, BagTold, Enabled;
    DoneIffSettles(s, sh, loc, e, rest, b, m, t, ask, extra);
    v :| Carried(rest, Insert(m.k, v));
    var x := Insert(m.k, v);
    RestCarries(rest, sh, loc, x);
    assert InFlight(rest, sh, x) + (if x == m then 1 else 0) == Due(rest, t, x) + One(extra, x);
  }

  /** Its client then gets no answer, or the entry outlives a remove, or an insert. */
  lemma OvertakingBreaks(s: Net, sh: Shape, loc: map<Id, Loc>, e: Event, rest: Net, b: Id, m: Msg,
                         t: Table, ask: Option<Msg>, extra: Option<Msg>)
    requires Handing(s, sh, loc, e, rest, b, m) && BooksHand(rest, sh, t, extra, m) && BagTold(rest, ask, extra)
    requires ask == Some(m) && Overtakes(s, e, m)
    ensures ReplyIn(s, e) != AnswerTo(t, m) || !Coherent(Do(s, e), Apply(t, m))
  {
    hide Normal, Do, Receive, Owns, Carried, KeyStored, BooksHand, BagTold, Overtakes, ReplyIn, SplitGuard, DeliveryOf;
    var v := OvertakenEntry(s, sh, loc, e, rest, b, m, t, ask, extra);
    HandedRequest(s, sh, loc, e, rest, b, m);
    if m.Lookup? {
      UnstoredReply(rest, b, m);
    } else {
      assert Copy(Do(s, e), m.k, v);
    }
  }

  lemma UnstoredReply(s: Net, b: Id, m: Msg)
    requires b in s.nodes && IsRequest(m) && !KeyStored(s, m.k)
    ensures OneReply(HandleValue(s.nodes[b], m).1) == []
  {
    hide Owns;
  }

  lemma HandedRequest(s: Net, sh: Shape, loc: map<Id, Loc>, e: Event, rest: Net, b: Id, m: Msg)
    requires Handing(s, sh, loc, e, rest, b, m) && IsRequest(m) && Owns(s.nodes[b], m.k)
    ensures b in rest.nodes && ReplyIn(s, e) == OneReply(HandleValue(rest.nodes[b], m).1)
    ensures forall x :: Carried(Do(s, e), x) <==> Carried(rest, x)
  {
    hide Normal, Do, Receive, HandleValue, Owns, Carried, SplitGuard, Enabled, React, ReplyIn;
    HandingReply(s, sh, loc, e, rest, b, m);
    ValueReaction(rest, b, m);
    ValueOk(rest, sh, loc, b, m);
    forall x ensures Carried(Do(s, e), x) <==> Carried(rest, x) {
      StoreOnly(rest, b, m);
      StoreCarried(rest, b, HandleValue(rest.nodes[b], m).0.store, x);
    }
  }

  lemma StoreOnly(s: Net, b: Id, m: Msg)
    requires b in s.nodes && IsRequest(m)
    ensures var n' := HandleValue(s.nodes[b], m).0; n' == s.nodes[b].(store := n'.store)
  {
  }

  lemma SettlerHands(s: Net, sh: Shape, loc: map<Id, Loc>, e: Event, t: Table, m: Msg)
    returns (rest: Net, b: Id, loc': map<Id, Loc>, extra: Option<Msg>)
    requires Normal(s, sh, loc) && Told(s, sh, t, Some(m)) && Enabled(s, e) && SplitGuard(s, e) && Settles(s, e, m)
    ensures Handing(s, sh, loc', e, rest, b, m) && BooksHand(rest, sh, t, extra, m) && BagTold(rest, Some(m), extra)
  {
    hide Normal, Told, Do, Handing, BooksHand, BagTold, SplitGuard;
    NothingFromAbove(s, sh, loc, e);
    NormalLocals(s, sh, loc);
    if e.RecvUdp? {
      loc', extra := UdpHanding(s, sh, loc, e, t, Some(m));
      rest, b := s.(udp := s.udp - multiset{e.p}), e.p.dest;
    } else {
      SettlerRuns(s, sh, e, m);
      loc', extra := PlainHanding(s, sh, loc, e, t, Some(m));
      rest, b := PopDown(s, s.nodes[e.b].pred.value, e.b), e.b;
    }
  }

  lemma SettlerRuns(s: Net, sh: Shape, e: Event, m: Msg)
    requires Locals(s, sh) && Enabled(s, e) && e.RecvPred? && Settles(s, e, m)
    ensures s.nodes[e.b].mode == Running && Down(s, s.nodes[e.b].pred.value, e.b)[0] == m
  {
    hide Locals, Do, Carried, Owns;
    IsMember(s, sh, e.b);
    if s.nodes[e.b].mode == JoinWait {
      AnswerIsNoRequest(s, sh, e);
    } else {
      ReaderRuns(s, sh, e.b);
    }
  }

  lemma StepIff(s: Net, sh: Shape, loc: map<Id, Loc>, e: Event, t: Table, m: Msg)
    requires Normal(s, sh, loc) && Told(s, sh, t, Some(m)) && Enabled(s, e) && SplitGuard(s, e) && Settles(s, e, m)
    ensures ReplyIn(s, e) == AnswerTo(t, m) && Coherent(Do(s, e), Apply(t, m)) <==> !Overtakes(s, e, m)
  {
    hide Normal, Told, Do, Handing, BooksHand, BagTold, SplitGuard, Overtakes, Coherent, ReplyIn, Enabled;
    if Overtakes(s, e, m) {
      var rest, b, loc', extra := SettlerHands(s, sh, loc, e, t, m);
      OvertakingBreaks(s, sh, loc', e, rest, b, m, t, Some(m), extra);
    } else {
      SettlerStarts(e);
      var sh', loc' := NormalAskStep(s, sh, loc, e, t, Some(m));
      BooksCoherent(Do(s, e), sh', loc', Apply(t, m));
    }
  }

  /** The condition is exact: whenever a client's request is handled, its answer and what the network then
      holds, stored or on its way, are those of the map if and only if it overtook no transfer of its key. */
  lemma MapIffNotOvertaken(id: Id, es: seq<Event>, e: Event)
    requires id != 0 && AskingRun(Initial(id), None, es)
    requires var s, ask := After(Initial(id), es), AskAfter(Initial(id), None, es);
             ask.Some? && Enabled(s, e) && SplitGuard(s, e) && Settles(s, e, ask.value)
    ensures var s, m, t := After(Initial(id), es), AskAfter(Initial(id), None, es).value, TableAfter(map[], es);
            ReplyIn(s, e) == AnswerTo(t, m) && Coherent(Do(s, e), t) <==> !Overtakes(s, e, m)
  {
    hide Inv, Normal, Told, Initial, Enabled, Do, SplitGuard, Settles, Overtakes, Coherent, ReplyIn, NoAsk;
    InitialAsk(id);
    var t, ask := AskRunMap(Initial(id), map[], None, es);
    var s := After(Initial(id), es);
    var sh, loc :| Normal(s, sh, loc) && Told(s, sh, t, ask);
    AnswerSame(t, ask.value);
    StepIff(s, sh, loc, e, t, ask.value);
  }

  lemma SettlerStarts(e: Event)
    ensures Delivers(e) ==> !e.ClientSend? && !e.LeaveStart?
  {
  }

  // ---- serial runs ----

  lemma StillWay(s: Net, sh: Shape, m: Msg, b: Id, e: Event)
    requires OnTheWay(s, sh, m, b) && Enabled(s, e) && (External(e) ==> Quiescent(s))
    ensures Delivers(e) && !Overtakes(s, e, m) && DeliveryOf(s, e).b == b && DeliveryOf(s, e).m == m
    ensures forall x :: !Carried(DeliveryOf(s, e).rest, x)
  {
    hide InOrder, OnlyMessage, Enabled, Do, DeliveryOf, Carried, Quiescent, Still;
    OnlyReader(s, sh, {}, m, b, e);
    RestIsStill(s, sh, {}, m, b, e);
    forall x ensures !Carried(DeliveryOf(s, e).rest, x) {
      StillCarries(DeliveryOf(s, e).rest, x);
    }
  }

  ghost predicate AskOnTheWay(s: Net, ask: Option<Msg>) {
    ask.Some? ==> exists sh, b :: OnTheWay(s, sh, ask.value, b)
  }

  lemma WayAskStep(s: Net, sh: Shape, m: Msg, b: Id, e: Event)
    requires OnTheWay(s, sh, m, b) && Enabled(s, e) && (External(e) ==> Quiescent(s))
    ensures !e.ClientSend? && !Overtakes(s, e, m) && AskOnTheWay(Do(s, e), Track(s, Some(m), e))
  {
    hide OnTheWay, Do, Quiescent, Overtakes, Owns, Enabled, DeliveryOf, Carried;
    StillWay(s, sh, m, b, e);
    WayStep(s, sh, m, b, e);
    WayIsRequest(s, sh, m, b);
    if !Owns(s.nodes[b], m.k) {
      assert OnTheWay(Do(s, e), sh, m, sh.nxt[b]);
    }
  }

  lemma SerialAskStep(s: Net, ask: Option<Msg>, e: Event)
    requires Inv(s) && AskOnTheWay(s, ask) && Enabled(s, e) && (External(e) ==> Quiescent(s))
    ensures (e.ClientSend? ==> ask.None?) && (ask.Some? ==> !Overtakes(s, e, ask.value))
    ensures AskOnTheWay(Do(s, e), Track(s, ask, e))
  {
    hide Inv, OnTheWay, Do, Quiescent, Overtakes, Settles;
    if ask.Some? {
      var sh, b :| OnTheWay(s, sh, ask.value, b);
      WayAskStep(s, sh, ask.value, b, e);
    } else if e.ClientSend? {
      SenderIsUp(s, e);
      var sh := QuietNormal(s);
      AskClean(s, sh, e);
    }
  }

  lemma WayIsRequest(s: Net, sh: Shape, m: Msg, b: Id)
    requires OnTheWay(s, sh, m, b)
    ensures IsRequest(m) && b in s.nodes && b in sh.nxt
  {
  }

  lemma SenderIsUp(s: Net, e: Event)
    requires Enabled(s, e) && e.ClientSend?
    ensures !s.leaving
  {
  }

  lemma {:induction false} SerialAsks(s: Net, t: Table, asked: Option<Msg>, ask: Option<Msg>, es: seq<Event>)
    requires SerialInv(s, t, asked) && AskOnTheWay(s, ask) && SerialRun(s, es)
    ensures AskingRun(s, ask, es)
    decreases |es|
  {
    hide Enabled, Do, DataInv, Inv, OneTruth, AskOnTheWay, SplitGuard, Overtakes, Track, Quiescent;
    if es != [] {
      SerialGuard(s, es[0]);
      SerialAskStep(s, ask, es[0]);
      var asked' := SerialStep(s, t, asked, es[0]);
      SerialAsks(Do(s, es[0]), TableStep(t, es[0]), asked', Track(s, ask, es[0]), es[1..]);
    }
  }

  lemma SerialGuard(s: Net, e: Event)
    requires Inv(s) && OneTruth(s) && Enabled(s, e) && (External(e) ==> Quiescent(s))
    ensures SplitGuard(s, e)
  {
    hide Inv, OneTruth, Enabled, Do, SplitGuard;
    assert Quiescent(s) ==> AllInRing(s);
    OneTruthStep(s, e);
  }

  /** A serial run is such a run: nothing can be overtaken where everything drains first. */
  lemma SerialIsAsking(id: Id, es: seq<Event>)
    requires id != 0 && SerialRun(Initial(id), es)
    ensures AskingRun(Initial(id), None, es)
  {
    hide SerialInv, Initial, SerialRun, AskingRun;
    InitialSerial(id);
    SerialAsks(Initial(id), map[], None, None, es);
  }
}
