/** The ring is a map while joins are in progress: client requests are sent one at a time, but at any time,
    and any number of nodes may be joining. What can go wrong, exactly, is that a request overtakes the
    transfer of its own key. */
module NetAsk {
  import opened Base
  import opened StoreSpec
  import opened NodeSpec
  import opened Network
  import opened NetViews
  import opened Ring
  import opened NetInv
  import opened NetSteps
  import opened NetJoin
  import opened NetCore
  import opened NetData
  import opened NetTheorems
  import opened NetTokens
  import opened NetMap
  import opened NetLoad
  import opened NetShrink
  import opened NetEnds
  import opened NetBooks
  import opened NetHand

  // ---- following the client's request ----

  /** Event e hands message m to a node that owns its key, and no second such message is in flight. */
  ghost predicate Settles(s: Net, e: Event, m: Msg)
    requires Enabled(s, e)
  {
    Delivers(e) && IsRequest(m) &&
    var d := DeliveryOf(s, e);
    d.m == m && d.b in s.nodes && Owns(s.nodes[d.b], m.k) && !Carried(d.rest, m)
  }

  /** Some VAL_INSERT of key k is in flight. */
  ghost predicate TransferCarried(s: Net, k: Ssn) {
    exists v :: Carried(s, Insert(k, v))
  }

  /** It does so while a transfer of the same key is in flight. */
  ghost predicate Overtakes(s: Net, e: Event, m: Msg)
    requires Enabled(s, e)
  {
    Settles(s, e, m) && TransferCarried(DeliveryOf(s, e).rest, m.k)
  }

  /** The client's request that is in flight after event e. */
  ghost function Track(s: Net, ask: Option<Msg>, e: Event): Option<Msg>
    requires Enabled(s, e)
  {
    if e.ClientSend? then Some(e.m)
    else if ask.Some? && Settles(s, e, ask.value) then None
    else ask
  }

  /** A guarded run in which clients wait for their request to be handled before the next is sent. */
  ghost predicate OneAtATime(s: Net, ask: Option<Msg>, es: seq<Event>)
    ensures OneAtATime(s, ask, es) ==> GuardedRun(s, es)
    decreases |es|
  {
    es == [] ||
    (&& Enabled(s, es[0]) && SplitGuard(s, es[0])
     && (es[0].ClientSend? ==> ask.None?)
     && OneAtATime(Do(s, es[0]), Track(s, ask, es[0]), es[1..]))
  }

  /** Such a run in which, besides, no request overtakes a transfer of its key. */
  ghost predicate AskingRun(s: Net, ask: Option<Msg>, es: seq<Event>)
    ensures AskingRun(s, ask, es) ==> GuardedRun(s, es) && OneAtATime(s, ask, es)
    decreases |es|
  {
    es == [] ||
    (&& Enabled(s, es[0]) && SplitGuard(s, es[0])
     && (es[0].ClientSend? ==> ask.None?)
     && (ask.Some? ==> !Overtakes(s, es[0], ask.value))
     && AskingRun(Do(s, es[0]), Track(s, ask, es[0]), es[1..]))
  }

  // ---- the books of a state ----

  ghost predicate NoUdpAsk(s: Net) {
    forall p :: p in s.udp ==> !IsRequest(p.m)
  }

  /** Packet p carries the only request in the bag. */
  ghost predicate OnlyAsk(s: Net, p: Packet, m: Msg) {
    && p in s.udp && p.m == m && s.udp[p] == 1
    && (forall q :: q in s.udp && IsRequest(q.m) ==> q == p)
  }

  /** t is the map after all handled requests; `ask` is the one that is not handled yet. */
  ghost predicate Told(s: Net, sh: Shape, t: Table, ask: Option<Msg>) {
    match ask
    case None => Books(s, sh, t, None) && NoUdpAsk(s)
    case Some(m) =>
      && IsRequest(m)
      && ((Books(s, sh, t, None) && exists p {:trigger OnlyAsk(s, p, m)} :: OnlyAsk(s, p, m))
          || (Books(s, sh, t, Some(m)) && NoUdpAsk(s)))
  }

  // ---- which of several equal messages it is ----

  lemma RestCarries(s: Net, sh: Shape, loc: map<Id, Loc>, m: Msg)
    requires Normal(s, sh, loc) && NoUdpAsk(s) && IsRequest(m)
    ensures Carried(s, m) <==> InFlight(s, sh, m) > 0
  {
    hide Locals, Tokens;
    InFlightIff(s, sh, loc, m);
  }

  lemma NoneOvertaken(s: Net, sh: Shape, loc: map<Id, Loc>, k: Ssn)
    requires Normal(s, sh, loc) && NoUdpAsk(s)
    ensures Uncrossed(s, sh, k) <==> !TransferCarried(s, k)
  {
    hide Normal;
    forall v ensures Carried(s, Insert(k, v)) <==> InFlight(s, sh, Insert(k, v)) > 0 {
      RestCarries(s, sh, loc, Insert(k, v));
    }
  }

  /** A request that b owns: either a transfer that is due, or the client's, and then it settles. */
  lemma SettledIff(s: Net, sh: Shape, loc: map<Id, Loc>, t: Table, extra: Option<Msg>, m: Msg)
    requires Normal(s, sh, loc) && IsRequest(m) && BooksHand(s, sh, t, extra, m)
    ensures Due(s, t, m) == 0 ==> extra == Some(m) && InFlight(s, sh, m) == 0
    ensures extra == Some(m) ==> (InFlight(s, sh, m) == 0 <==> Due(s, t, m) == 0)
    ensures Due(s, t, m) <= 1
  {
    assert InFlight(s, sh, m) + 1 == Due(s, t, m) + One(extra, m);
  }

  // ---- a message in hand ----

  ghost predicate BagTold(s: Net, ask: Option<Msg>, extra: Option<Msg>) {
    match ask
    case None => extra == None && NoUdpAsk(s)
    case Some(m) =>
      && IsRequest(m)
      && ((extra == None && exists p :: OnlyAsk(s, p, m)) || (extra == Some(m) && NoUdpAsk(s)))
  }

  lemma BagOfTold(s: Net, sh: Shape, t: Table, ask: Option<Msg>) returns (extra: Option<Msg>)
    requires Told(s, sh, t, ask)
    ensures Books(s, sh, t, extra) && BagTold(s, ask, extra)
  {
    hide Books;
    extra := if ask.Some? && NoUdpAsk(s) then ask else None;
    if ask.Some? {
      AskInBag(s, ask.value);
    }
  }

  lemma AskInBag(s: Net, m: Msg)
    requires IsRequest(m)
    ensures (exists p {:trigger OnlyAsk(s, p, m)} :: OnlyAsk(s, p, m)) ==> !NoUdpAsk(s)
  {
    if p :| OnlyAsk(s, p, m) {
      assert p in s.udp;
    }
  }

  lemma ToldOfBag(s: Net, sh: Shape, t: Table, ask: Option<Msg>, extra: Option<Msg>)
    requires Books(s, sh, t, extra) && BagTold(s, ask, extra)
    ensures Told(s, sh, t, ask)
  {
    hide Books;
  }

  lemma SameBag(s: Net, s': Net, ask: Option<Msg>, extra: Option<Msg>)
    requires BagTold(s, ask, extra) && s'.udp == s.udp
    ensures BagTold(s', ask, extra)
  {
    if ask.Some? && extra == None {
      var p :| OnlyAsk(s, p, ask.value);
      assert OnlyAsk(s', p, ask.value);
    }
  }

  lemma ReceiveBag(s: Net, b: Id, m: Msg)
    requires b in s.nodes
    ensures Receive(s, b, m).udp == s.udp && Receive(s, b, m).leaving == s.leaving
  {
    var (n', out) := React(s, b, m);
    EmitNodes(s, b, s.nodes[b], n', out);
  }

  /** Event e hands m to b; the rest of the network is told what is in flight besides. */
  ghost predicate Handing(s: Net, sh: Shape, loc: map<Id, Loc>, e: Event, rest: Net, b: Id, m: Msg) {
    && Enabled(s, e) && SplitGuard(s, e) && Delivers(e) && DeliveryOf(s, e) == Delivery(b, m, rest)
    && b in s.nodes && rest.nodes == s.nodes && s.nodes[b].mode == Running && Do(s, e) == Receive(rest, b, m)
    && Normal(rest, sh, loc) && InHand(rest, sh, loc, m)
  }

  /** The handler takes the client's request at its word exactly if the request settles. */
  lemma DoneIffSettles(s: Net, sh: Shape, loc: map<Id, Loc>, e: Event, rest: Net, b: Id, m: Msg,
                       t: Table, ask: Option<Msg>, extra: Option<Msg>)
    requires Handing(s, sh, loc, e, rest, b, m) && BooksHand(rest, sh, t, extra, m) && BagTold(rest, ask, extra)
    ensures IsDone(rest, t, b, m) <==> ask.Some? && Settles(s, e, ask.value)
    ensures IsDone(rest, t, b, m) ==> ask == Some(m) && extra == Some(m) && NoUdpAsk(rest)
  {
    hide Normal, BooksHand, SplitGuard, Do, Receive, Carried, Owns, Due, InFlight, Enabled;
    if IsRequest(m) {
      SettledIff(rest, sh, loc, t, extra, m);
      if extra == Some(m) && ask == Some(m) {
        RestCarries(rest, sh, loc, m);
      }
      if extra == None && ask == Some(m) {
        BagCarries(rest, m);
      }
    }
  }

  lemma BagCarries(s: Net, m: Msg)
    requires exists p :: OnlyAsk(s, p, m)
    ensures Carried(s, m)
  {
    var p :| OnlyAsk(s, p, m);
    assert OnUdp(s, m);
  }

  lemma NotDoneNoReply(s: Net, t: Table, b: Id, m: Msg)
    requires b in s.nodes && s.nodes[b].mode == Running && PlainMsg(m) && !IsDone(s, t, b, m)
    ensures OneReply(React(s, b, m).1) == []
  {
    OnlyLookupsReply(s, b, m);
    if m.Lookup? {
      ValueReaction(s, b, m);
      ForwardedValue(s.nodes[b], m);
    }
  }

  /** What becomes of the map when the client's request settles. */
  function MapAfter(t: Table, ask: Option<Msg>, ask': Option<Msg>): Table {
    if ask.Some? && ask'.None? then Apply(t, ask.value) else t
  }

  function ReplyAfter(t: Table, ask: Option<Msg>, ask': Option<Msg>): seq<Reply> {
    if ask.Some? && ask'.None? then AnswerTo(t, ask.value) else []
  }

  lemma HandedStep(s: Net, sh: Shape, loc: map<Id, Loc>, e: Event, rest: Net, b: Id, m: Msg,
                   t: Table, ask: Option<Msg>, extra: Option<Msg>) returns (sh': Shape, loc': map<Id, Loc>)
    requires Handing(s, sh, loc, e, rest, b, m) && BooksHand(rest, sh, t, extra, m) && BagTold(rest, ask, extra)
    requires ask.Some? ==> !Overtakes(s, e, ask.value)
    ensures Normal(Do(s, e), sh', loc')
    ensures var ask' := Track(s, ask, e);
            Told(Do(s, e), sh', MapAfter(t, ask, ask'), ask') && ReplyIn(s, e) == ReplyAfter(t, ask, ask')
  {
    hide Normal, BooksHand, Books, Do, Receive, Settles, Due, Uncrossed, React, TransferCarried, BagTold, Told, Enabled;
    sh', loc' := HandBooks(rest, sh, loc, b, m, t, extra);
    DoneIffSettles(s, sh, loc, e, rest, b, m, t, ask, extra);
    ReceiveBag(rest, b, m);
    HandingReply(s, sh, loc, e, rest, b, m);
    if IsDone(rest, t, b, m) {
      NoneOvertaken(rest, sh, loc, m.k);
      OwnedReply(rest, sh, loc, b, m, t, extra);
      NoAskLeft(rest, Do(s, e));
      ToldOfBag(Do(s, e), sh', Apply(t, m), None, None);
    } else {
      NotDoneNoReply(rest, t, b, m);
      SameBag(rest, Do(s, e), ask, extra);
      ToldOfBag(Do(s, e), sh', t, ask, extra);
    }
  }

  lemma NoAskLeft(s: Net, s': Net)
    requires NoUdpAsk(s) && s'.udp == s.udp
    ensures BagTold(s', None, None)
  {
  }

  lemma HandingReply(s: Net, sh: Shape, loc: map<Id, Loc>, e: Event, rest: Net, b: Id, m: Msg)
    requires Handing(s, sh, loc, e, rest, b, m)
    ensures ReplyIn(s, e) == OneReply(React(rest, b, m).1)
    ensures Splits(rest, b, m) ==> rest.nodes[b].lo < rest.nodes[b].hi
    ensures !e.ClientSend?
  {
    hide Normal, Do, Receive;
    SameReaction(rest, s, b, m);
  }

  // ---- one event ----

  lemma UdpHanding(s: Net, sh: Shape, loc: map<Id, Loc>, e: Event, t: Table, ask: Option<Msg>)
    returns (loc': map<Id, Loc>, extra: Option<Msg>)
    requires Normal(s, sh, loc) && Told(s, sh, t, ask) && Enabled(s, e) && SplitGuard(s, e) && e.RecvUdp?
    ensures var rest := s.(udp := s.udp - multiset{e.p});
            && Handing(s, sh, loc', e, rest, e.p.dest, e.p.m)
            && BooksHand(rest, sh, t, extra, e.p.m) && BagTold(rest, ask, extra)
  {
    hide Normal, BooksHand, Books, Receive, React, Told, BagTold;
    loc' := LocWithout(loc, e.p.m);
    NormalLocals(s, sh, loc);
    PopUdpOk(s, sh, loc, e.p);
    extra := BagTaken(s, sh, e.p, t, ask);
  }

  lemma UdpAskStep(s: Net, sh: Shape, loc: map<Id, Loc>, e: Event, t: Table, ask: Option<Msg>)
    returns (sh': Shape, loc': map<Id, Loc>)
    requires Normal(s, sh, loc) && Told(s, sh, t, ask) && Enabled(s, e) && SplitGuard(s, e) && e.RecvUdp?
    requires ask.Some? ==> !Overtakes(s, e, ask.value)
    ensures Normal(Do(s, e), sh', loc')
    ensures var ask' := Track(s, ask, e);
            Told(Do(s, e), sh', MapAfter(t, ask, ask'), ask') && ReplyIn(s, e) == ReplyAfter(t, ask, ask')
  {
    hide Handing, Do, Enabled, BooksHand, BagTold, Told, Track, Overtakes, ReplyIn, Normal;
    var loc1, extra := UdpHanding(s, sh, loc, e, t, ask);
    sh', loc' := HandedStep(s, sh, loc1, e, s.(udp := s.udp - multiset{e.p}), e.p.dest, e.p.m, t, ask, extra);
  }

  lemma BagTaken(s: Net, sh: Shape, p: Packet, t: Table, ask: Option<Msg>) returns (extra: Option<Msg>)
    requires Locals(s, sh) && Told(s, sh, t, ask) && p in s.udp && PlainMsg(p.m)
    ensures var rest := s.(udp := s.udp - multiset{p}); BooksHand(rest, sh, t, extra, p.m) && BagTold(rest, ask, extra)
  {
    hide Locals, Books, BooksHand;
    var rest := s.(udp := s.udp - multiset{p});
    var extra0 := BagOfTold(s, sh, t, ask);
    if IsRequest(p.m) {
      AskTaken(s, p, ask, extra0);
      TakeFromBag(s, sh, p, t);
      extra := ask;
    } else {
      TokenTaken(s, p, ask, extra0);
      BagBooks(s, rest, sh, t, extra0);
      NoRequestInHand(rest, sh, t, extra0, p.m);
      extra := extra0;
    }
  }

  lemma AskTaken(s: Net, p: Packet, ask: Option<Msg>, extra: Option<Msg>)
    requires BagTold(s, ask, extra) && p in s.udp && IsRequest(p.m)
    ensures ask == Some(p.m) && extra == None && BagTold(s.(udp := s.udp - multiset{p}), ask, ask)
  {
    if ask.Some? && extra == None {
      var q :| OnlyAsk(s, q, ask.value);
      assert p == q;
    }
  }

  lemma TokenTaken(s: Net, p: Packet, ask: Option<Msg>, extra: Option<Msg>)
    requires BagTold(s, ask, extra) && p in s.udp && !IsRequest(p.m)
    ensures BagTold(s.(udp := s.udp - multiset{p}), ask, extra)
  {
    var rest := s.(udp := s.udp - multiset{p});
    if ask.Some? && extra == None {
      var q :| OnlyAsk(s, q, ask.value);
      assert p != q && OnlyAsk(rest, q, ask.value);
    }
  }

  lemma PlainHanding(s: Net, sh: Shape, loc: map<Id, Loc>, e: Event, t: Table, ask: Option<Msg>)
    returns (loc': map<Id, Loc>, extra: Option<Msg>)
    requires Normal(s, sh, loc) && Told(s, sh, t, ask) && Enabled(s, e) && SplitGuard(s, e) && e.RecvPred?
    requires s.nodes[e.b].mode == Running && PlainMsg(Down(s, s.nodes[e.b].pred.value, e.b)[0])
    ensures var x := s.nodes[e.b].pred.value;
            && e.b in s.nodes && s.nodes[e.b].pred.Some? && Down(s, x, e.b) != []
            && Handing(s, sh, loc', e, PopDown(s, x, e.b), e.b, Down(s, x, e.b)[0])
            && BooksHand(PopDown(s, x, e.b), sh, t, extra, Down(s, x, e.b)[0])
            && BagTold(PopDown(s, x, e.b), ask, extra)
  {
    hide Normal, BooksHand, Books, Receive, React, Told, BagTold;
    var x := s.nodes[e.b].pred.value;
    loc' := LocWithout(loc, Down(s, x, e.b)[0]);
    NormalLocals(s, sh, loc);
    IsMember(s, sh, e.b);
    PopDownOk(s, sh, loc, e.b);
    extra := BagOfTold(s, sh, t, ask);
    TakeFromPred(s, sh, e.b, t, extra);
    SameBag(s, PopDown(s, x, e.b), ask, extra);
  }

  lemma PlainAskStep(s: Net, sh: Shape, loc: map<Id, Loc>, e: Event, t: Table, ask: Option<Msg>)
    returns (sh': Shape, loc': map<Id, Loc>)
    requires Normal(s, sh, loc) && Told(s, sh, t, ask) && Enabled(s, e) && SplitGuard(s, e) && e.RecvPred?
    requires s.nodes[e.b].mode == Running && PlainMsg(Down(s, s.nodes[e.b].pred.value, e.b)[0])
    requires ask.Some? ==> !Overtakes(s, e, ask.value)
    ensures Normal(Do(s, e), sh', loc')
    ensures var ask' := Track(s, ask, e);
            Told(Do(s, e), sh', MapAfter(t, ask, ask'), ask') && ReplyIn(s, e) == ReplyAfter(t, ask, ask')
  {
    hide Handing, Do, Enabled, BooksHand, BagTold, Told, Track, Overtakes, ReplyIn, Normal;
    var loc1, extra := PlainHanding(s, sh, loc, e, t, ask);
    var x := s.nodes[e.b].pred.value;
    sh', loc' := HandedStep(s, sh, loc1, e, PopDown(s, x, e.b), e.b, Down(s, x, e.b)[0], t, ask, extra);
  }

  /** An event that takes no request and changes no table. */
  lemma CalmStep(s: Net, s': Net, sh: Shape, t: Table, ask: Option<Msg>)
    requires Told(s, sh, t, ask)
    requires s'.udp == s.udp
    requires forall a :: a in s.nodes ==> a in s'.nodes && s'.nodes[a].store == s.nodes[a].store
    requires forall a :: a in s'.nodes && a !in s.nodes ==> s'.nodes[a].store == EMPTY_STORE
    requires forall x {:trigger InFlight(s', sh, x)} :: IsRequest(x) ==> InFlight(s', sh, x) == InFlight(s, sh, x)
    ensures Told(s', sh, t, ask)
  {
    hide Books, Told, BagTold;
    var extra := BagOfTold(s, sh, t, ask);
    SameBooks(s, s', sh, t, extra);
    SameBag(s, s', ask, extra);
    ToldOfBag(s', sh, t, ask, extra);
  }

  lemma AcceptTold(s: Net, sh: Shape, e: Event, t: Table, ask: Option<Msg>)
    requires Locals(s, sh) && Told(s, sh, t, ask) && Enabled(s, e) && e.Accept?
    ensures Told(Do(s, e), sh, t, ask)
  {
    hide Locals, Told, Do, Enabled, PrivateChange;
    var s' := Do(s, e);
    AcceptCalm(s, e);
    AcceptIsPrivate(s, sh, e);
    PrivatePipes(s, s', e.b);
    forall x {:trigger InFlight(s', sh, x)} ensures InFlight(s', sh, x) == InFlight(s, sh, x) {
      QuietLoad(s, s', sh, Counts(x));
    }
    CalmStep(s, s', sh, t, ask);
  }

  lemma AcceptCalm(s: Net, e: Event)
    requires Enabled(s, e) && e.Accept?
    ensures Do(s, e).udp == s.udp && Do(s, e).nodes.Keys == s.nodes.Keys
    ensures forall a {:trigger Do(s, e).nodes[a]} :: a in s.nodes ==> Do(s, e).nodes[a].store == s.nodes[a].store
  {
  }

  lemma AnswerTold(s: Net, sh: Shape, loc: map<Id, Loc>, e: Event, t: Table, ask: Option<Msg>)
    requires Normal(s, sh, loc) && Told(s, sh, t, ask) && AtAnswer(s, sh, e)
    ensures Told(Do(s, e), sh, t, ask)
  {
    hide Locals, Told, Do, Enabled, AfterAnswer, Tokens, Streams, InFlight;
    var s' := Do(s, e);
    AnswerSite(s, sh, loc, e);
    var b, c := e.b, sh.nxt[e.b];
    var x := s.nodes[b].pred.value;
    AnswerEffect(s, sh, e);
    AnswerQueues(s, s', sh, b, x, c, Down(s, x, b)[0]);
    forall m {:trigger InFlight(s', sh, m)} | IsRequest(m) ensures InFlight(s', sh, m) == InFlight(s, sh, m) {
      AnswerCount(s, s', sh, b, x, c, Down(s, x, b)[0], m);
    }
    CalmStep(s, s', sh, t, ask);
  }

  lemma AnswerCount(s: Net, s': Net, sh: Shape, b: Id, x: Id, c: Id, m0: Msg, m: Msg)
    requires Locals(s, sh) && Member(sh, b) && Member(sh, c) && b != c
    requires b in s.nodes && c in s.nodes && x in Pipe(s, b)
    requires AfterAnswer(s, s', b, x, c, m0) && b !in Pipe(s, c) && m0.JoinResponse? && IsRequest(m)
    ensures InFlight(s', sh, m) == InFlight(s, sh, m)
  {
    hide Locals, AfterAnswer;
    AnswerLoad(s, s', sh, b, x, c, m0, Counts(m));
  }

  lemma CloseTold(s: Net, sh: Shape, loc: map<Id, Loc>, e: Event, t: Table, ask: Option<Msg>)
    requires Normal(s, sh, loc) && Told(s, sh, t, ask) && AtClose(s, e)
    ensures Told(Do(s, e), sh, t, ask)
  {
    hide Locals, Told, Do, AfterClose, Tokens, Streams;
    var s' := Do(s, e);
    var x := s.nodes[e.b].pred.value;
    CloseEffect(s, sh, loc, e);
    CloseStream(s, sh, e);
    CloseQueues(s, s', e.b, x);
    forall m {:trigger InFlight(s', sh, m)} | IsRequest(m) ensures InFlight(s', sh, m) == InFlight(s, sh, m) {
      CloseLoad(s, s', sh, e.b, x, Counts(m));
    }
    CalmStep(s, s', sh, t, ask);
  }

  /** Event e hands no request to anybody. */
  lemma NothingSettles(s: Net, ask: Option<Msg>, e: Event)
    requires Enabled(s, e) && !e.ClientSend? && (Delivers(e) ==> !IsRequest(DeliveryOf(s, e).m))
    requires Delivers(e) ==> DeliveryOf(s, e).b in s.nodes
    ensures Track(s, ask, e) == ask && ReplyIn(s, e) == []
  {
    hide Enabled, DeliveryOf;
    if Delivers(e) {
      OnlyLookupsReply(s, DeliveryOf(s, e).b, DeliveryOf(s, e).m);
    }
  }

  lemma SendTold(s: Net, sh: Shape, e: Event, t: Table)
    requires Locals(s, sh) && Told(s, sh, t, None) && Enabled(s, e) && e.ClientSend?
    ensures Told(Do(s, e), sh, t, Some(e.m))
  {
    hide Locals, Books;
    BagBooks(s, Do(s, e), sh, t, None);
    assert OnlyAsk(Do(s, e), Packet(e.dest, e.m), e.m);
  }

  lemma JoinStartTold(s: Net, sh: Shape, e: Event, t: Table, ask: Option<Msg>)
    requires Locals(s, sh) && Told(s, sh, t, ask) && Enabled(s, e) && e.JoinStart?
    ensures Told(Do(s, e), sh, t, ask)
  {
    hide Locals, Told, BagTold, InFlight;
    var s' := Do(s, e);
    var extra := BagOfTold(s, sh, t, ask);
    NewcomerIsOutside(s, sh, e.j);
    forall x {:trigger InFlight(s', sh, x)} ensures InFlight(s', sh, x) == InFlight(s, sh, x) {
      StartCount(s, sh, e, x);
    }
    SameBooks(s, s', sh, t, extra);
    TokenSent(s, e, ask, extra);
    ToldOfBag(s', sh, t, ask, extra);
  }

  lemma StartCount(s: Net, sh: Shape, e: Event, x: Msg)
    requires Locals(s, sh) && Enabled(s, e) && e.JoinStart? && !Member(sh, e.j)
    ensures InFlight(Do(s, e), sh, x) == InFlight(s, sh, x)
  {
    hide Locals;
    var s' := Do(s, e);
    forall a ensures a != e.j ==> Backlog(s', a) == Backlog(s, a) {}
    QuietLoad(s, s', sh, Counts(x));
  }

  lemma TokenSent(s: Net, e: Event, ask: Option<Msg>, extra: Option<Msg>)
    requires Enabled(s, e) && e.JoinStart? && BagTold(s, ask, extra)
    ensures BagTold(Do(s, e), ask, extra)
  {
    if ask.Some? && extra == None {
      var p :| OnlyAsk(s, p, ask.value);
      assert OnlyAsk(Do(s, e), p, ask.value);
    }
  }

  lemma PredAskStep(s: Net, sh: Shape, loc: map<Id, Loc>, e: Event, t: Table, ask: Option<Msg>)
    returns (sh': Shape, loc': map<Id, Loc>)
    requires Normal(s, sh, loc) && Told(s, sh, t, ask) && Enabled(s, e) && SplitGuard(s, e) && e.RecvPred?
    requires ask.Some? ==> !Overtakes(s, e, ask.value)
    ensures Normal(Do(s, e), sh', loc')
    ensures var ask' := Track(s, ask, e);
            Told(Do(s, e), sh', MapAfter(t, ask, ask'), ask') && ReplyIn(s, e) == ReplyAfter(t, ask, ask')
  {
    hide Locals, Do, Tokens, Streams, Told, Track, Overtakes, ReplyIn, React;
    sh', loc' := sh, loc;
    IsMember(s, sh, e.b);
    if s.nodes[e.b].mode == JoinWait {
      AnswerOk(s, sh, loc, e);
      AnswerEffect(s, sh, e);
      AnswerSite(s, sh, loc, e);
      AnswerIsNoRequest(s, sh, e);
      NothingSettles(s, ask, e);
      AnswerTold(s, sh, loc, e, t, ask);
    } else {
      ReaderRuns(s, sh, e.b);
      RunningHead(s, sh, e.b);
      if Down(s, s.nodes[e.b].pred.value, e.b)[0] == Close {
        CloseOk(s, sh, loc, e);
        NothingSettles(s, ask, e);
        CloseTold(s, sh, loc, e, t, ask);
      } else {
        sh', loc' := PlainAskStep(s, sh, loc, e, t, ask);
      }
    }
  }

  lemma AnswerIsNoRequest(s: Net, sh: Shape, e: Event)
    requires Locals(s, sh) && AtAnswer(s, sh, e)
    ensures !IsRequest(DeliveryOf(s, e).m) && DeliveryOf(s, e).b in s.nodes
  {
    hide Locals, Do;
    AnswerEffect(s, sh, e);
  }

  lemma NormalAskStep(s: Net, sh: Shape, loc: map<Id, Loc>, e: Event, t: Table, ask: Option<Msg>)
    returns (sh': Shape, loc': map<Id, Loc>)
    requires Normal(s, sh, loc) && Told(s, sh, t, ask) && Enabled(s, e) && SplitGuard(s, e) && !e.LeaveStart?
    requires (e.ClientSend? ==> ask.None?) && (ask.Some? ==> !Overtakes(s, e, ask.value))
    ensures Normal(Do(s, e), sh', loc')
    ensures var ask' := Track(s, ask, e);
            Told(Do(s, e), sh', MapAfter(t, ask, ask'), ask') && ReplyIn(s, e) == ReplyAfter(t, ask, ask')
  {
    hide Normal, Do, Told, Overtakes, ReplyIn;
    sh', loc' := sh, loc;
    NothingFromAbove(s, sh, loc, e);
    NormalLocals(s, sh, loc);
    NormalNotLeaving(s, sh, loc);
    match e
    case ClientSend(_, _) =>
      ClientSendOk(s, sh, loc, e);
      SendTold(s, sh, e, t);
      NoReplySent(s, e);
    case JoinStart(j, _) =>
      JoinStartOk(s, sh, loc, e);
      loc' := loc[j := InBag];
      NothingSettles(s, ask, e);
      JoinStartTold(s, sh, e, t, ask);
    case Accept(_) =>
      AcceptOk(s, sh, loc, e);
      NothingSettles(s, ask, e);
      AcceptTold(s, sh, e, t, ask);
    case RecvUdp(_) => sh', loc' := UdpAskStep(s, sh, loc, e, t, ask);
    case RecvPred(_) => sh', loc' := PredAskStep(s, sh, loc, e, t, ask);
    case _ =>
  }

  lemma NoReplySent(s: Net, e: Event)
    requires Enabled(s, e) && e.ClientSend?
    ensures ReplyIn(s, e) == []
  {
  }

  lemma NormalNotLeaving(s: Net, sh: Shape, loc: map<Id, Loc>)
    requires Normal(s, sh, loc)
    ensures !s.leaving
  {
  }
}
