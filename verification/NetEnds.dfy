/** Everything ends: however many joins, leaves and requests are in progress, a network in which nobody
    starts anything new comes to rest. */
module NetEnds {
  import opened Base
  import opened NodeSpec
  import opened Network
  import opened Ring
  import opened RingWalk
  import opened NetInv
  import opened NetSteps
  import opened NetJoin
  import opened NetCore
  import opened NetData
  import opened NetLeave
  import opened NetTheorems
  import opened NetSafety
  import opened NetTokens
  import opened NetRuns
  import opened NetSingle
  import opened NetRounds
  import opened NetRoundTrip
  import opened NetDrainLeave
  import opened NetReach
  import opened NetDistance
  import opened NetLoad
  import opened NetShrink

  // ---- counting ----

  lemma SubsetSize(a: set<Id>, b: set<Id>)
    requires a <= b
    ensures |a| <= |b|
  {
    assert b == a + (b - a);
  }

  /** There is a place in the network for every member, and for an outsider besides. */
  lemma MembersCount(s: Net, sh: Shape)
    requires Locals(s, sh)
    ensures |sh.order| <= |s.nodes|
    ensures forall j :: Outsider(s, sh, j) ==> |sh.order| < |s.nodes|
  {
    hide LocalOk, Tiles;
    var members := set b | b in sh.order;
    CardinalityOfOrder(sh.order, members);
    forall b | b in members ensures b in s.nodes.Keys {
      var i :| 0 <= i < |sh.order| && sh.order[i] == b;
      OrderMember(sh, i);
      MemberIsThere(s, sh, b);
    }
    SubsetSize(members, s.nodes.Keys);
    assert |s.nodes| == |s.nodes.Keys|;
    forall j | Outsider(s, sh, j) ensures |sh.order| < |s.nodes| {
      OutsiderCounts(s, sh, members, j);
    }
  }

  lemma OutsiderCounts(s: Net, sh: Shape, members: set<Id>, j: Id)
    requires Linked(sh) && Outsider(s, sh, j) && members <= s.nodes.Keys && |members| == |sh.order|
    requires forall b :: b in members ==> b in sh.order
    ensures |sh.order| < |s.nodes|
  {
    forall b | b in members ensures Member(sh, b) {
      var i :| 0 <= i < |sh.order| && sh.order[i] == b;
      OrderMember(sh, i);
    }
    SubsetSize(members + {j}, s.nodes.Keys);
    assert |s.nodes| == |s.nodes.Keys|;
  }

  // ---- a message in hand ----

  lemma RequestShrinks(s: Net, sh: Shape, loc: map<Id, Loc>, b: Id, m: Msg)
    requires Normal(s, sh, loc) && b in s.nodes && s.nodes[b].mode == Running && IsRequest(m)
    ensures Receive(s, b, m).nodes.Keys == s.nodes.Keys
    ensures Left(Receive(s, b, m), sh) < Left(s, sh) + ToGo(sh, b, m) + Hand(s, sh)
  {
    hide Locals, Streams, Tokens, Receive, HandleValue, LeftWith, ToGo, Times;
    ValueOk(s, sh, loc, b, m);
    MemberFields(s, sh, loc, b);
    LocalsLinked(s, sh);
    if Owns(s.nodes[b], m.k) {
      DoneShrinks(s, sh, b, m, Hand(s, sh));
    } else {
      RequestNearer(sh, b, m);
      ForwardShrinks(s, sh, b, m, m, Hand(s, sh));
    }
  }

  lemma TokenShrinks(s: Net, sh: Shape, loc: map<Id, Loc>, b: Id, m: Msg)
    requires Normal(s, sh, loc) && b in s.nodes && s.nodes[b].mode == Running && InHand(s, sh, loc, m)
    requires m.Join? && !Splits(s, b, m) && TokenNamed(sh, m) && |s.nodes| <= 256
    ensures Receive(s, b, m).nodes.Keys == s.nodes.Keys
    ensures Left(Receive(s, b, m), sh) < Left(s, sh) + ToGo(sh, b, m) + Hand(s, sh)
  {
    hide Locals, Streams, Tokens, Receive, LeftWith, ToGo, Times;
    TokenPassOk(s, sh, loc, b, m);
    MemberFields(s, sh, loc, b);
    LocalsLinked(s, sh);
    MembersCount(s, sh);
    TokenNearer(sh, b, s.nodes[b], m);
    ForwardShrinks(s, sh, b, m, PassOn(b, s.nodes[b], m), Hand(s, sh));
  }

  lemma AnswerShrinksHand(s: Net, sh: Shape, loc: map<Id, Loc>, b: Id, m: Msg) returns (sh': Shape)
    requires Normal(s, sh, loc) && InHand(s, sh, loc, m) && Splits(s, b, m) && s.nodes[b].lo < s.nodes[b].hi
    ensures Member(sh, b) && IsInsertion(sh, sh', b, m.src) && Normal(Receive(s, b, m), sh', loc)
    ensures Receive(s, b, m).nodes.Keys == s.nodes.Keys
    ensures Left(Receive(s, b, m), sh') < Left(s, sh)
  {
    hide Locals, Streams, Tokens, Receive, LeftWith, IsInsertion, ShapeOk;
    var s' := Receive(s, b, m);
    sh' := SplitOk(s, sh, loc, b, m);
    SplitEffect(s, sh, loc, b, m);
    SplitPlaces(s, s', sh, sh', b, m.src);
    SplitShrinks(s, s', sh, sh', b, m.src, Hand(s', sh'));
  }

  lemma SplitPlaces(s: Net, s': Net, sh: Shape, sh': Shape, w: Id, j: Id)
    requires SplitSetting(s, s', sh, sh', w, j) && Locals(s', sh')
    ensures ShapeOk(sh') && s'.nodes.Keys == s.nodes.Keys
    ensures Outsiders(s, sh) == Outsiders(s', sh') + 1 && Hand(s, sh) == Hand(s', sh') + FULL
  {
    hide Locals, KeepLower, Handover;
    LocalsLinked(s', sh');
    MembersCount(s, sh);
    MembersCount(s', sh');
    assert |s'.nodes| == |s'.nodes.Keys| == |s.nodes.Keys| == |s.nodes|;
  }

  /** A running member handles a plain message. */
  lemma HandShrinks(s: Net, sh: Shape, loc: map<Id, Loc>, b: Id, m: Msg) returns (sh': Shape, loc': map<Id, Loc>)
    requires Normal(s, sh, loc) && b in s.nodes && s.nodes[b].mode == Running && InHand(s, sh, loc, m)
    requires Splits(s, b, m) ==> s.nodes[b].lo < s.nodes[b].hi
    requires |s.nodes| <= 256 && (m.Join? ==> TokenNamed(sh, m))
    ensures Normal(Receive(s, b, m), sh', loc') && Grows(sh, sh') && Receive(s, b, m).nodes.Keys == s.nodes.Keys
    ensures Left(Receive(s, b, m), sh') < Left(s, sh) + ToGo(sh, b, m) + Hand(s, sh)
  {
    hide Locals, Streams, Tokens, Receive, Left, Hand, ToGo, TokenNamed;
    sh', loc' := sh, loc;
    if IsRequest(m) {
      ValueOk(s, sh, loc, b, m);
      RequestShrinks(s, sh, loc, b, m);
    } else if Splits(s, b, m) {
      sh' := AnswerShrinksHand(s, sh, loc, b, m);
    } else {
      TokenPassOk(s, sh, loc, b, m);
      loc' := loc[m.src := OnLink(b, sh.nxt[b])];
      TokenShrinks(s, sh, loc, b, m);
    }
  }

  // ---- one event ----

  /** Every token names nobody yet, or a member of the ring. */
  ghost predicate AllNamed(s: Net, sh: Shape) {
    forall t {:trigger Carried(s, t)} :: Carried(s, t) && t.Join? ==> TokenNamed(sh, t)
  }

  lemma NamedStep(s: Net, sh: Shape, loc: map<Id, Loc>, e: Event, sh': Shape)
    requires Normal(s, sh, loc) && AllNamed(s, sh) && Enabled(s, e) && !e.LeaveStart? && Grows(sh, sh')
    ensures AllNamed(Do(s, e), sh')
  {
    hide Do, Locals, Streams, Tokens;
    forall t {:trigger Carried(Do(s, e), t)} | Carried(Do(s, e), t) && t.Join? ensures TokenNamed(sh', t) {
      NormalFlow(s, sh, loc, e, t);
      if PassesToken(s, e, t) {
        DeliveredCarried(s, e);
        PasserIsMember(s, sh, loc, e);
      }
    }
  }

  lemma PasserIsMember(s: Net, sh: Shape, loc: map<Id, Loc>, e: Event)
    requires Normal(s, sh, loc) && Enabled(s, e) && Delivers(e) && DeliveryOf(s, e).m.Join?
    ensures Member(sh, DeliveryOf(s, e).b) && DeliveryOf(s, e).b != 0
  {
    hide Locals, Tokens;
    IsMember(s, sh, DeliveryOf(s, e).b);
  }

  lemma UdpStep(s: Net, sh: Shape, loc: map<Id, Loc>, e: Event) returns (sh': Shape, loc': map<Id, Loc>)
    requires Normal(s, sh, loc) && AllNamed(s, sh) && Enabled(s, e) && SplitGuard(s, e)
    requires e.RecvUdp? && |s.nodes| <= 256
    ensures Normal(Do(s, e), sh', loc') && Grows(sh, sh') && Do(s, e).nodes.Keys == s.nodes.Keys
    ensures Left(Do(s, e), sh') < Left(s, sh)
  {
    hide Locals, Streams, Tokens, Receive, LeftWith, ToGo, TokenNamed, Times;
    var rest := s.(udp := s.udp - multiset{e.p});
    PopUdpOk(s, sh, loc, e.p);
    if e.p.m.Join? {
      DeliveredCarried(s, e);
    }
    LocalsLinked(s, sh);
    UdpTaken(s, sh, e.p, Hand(s, sh));
    ToGoBounds(sh, e.p.dest, e.p.m);
    sh', loc' := HandShrinks(rest, sh, LocWithout(loc, e.p.m), e.p.dest, e.p.m);
  }

  lemma PlainStep(s: Net, sh: Shape, loc: map<Id, Loc>, e: Event) returns (sh': Shape, loc': map<Id, Loc>)
    requires Normal(s, sh, loc) && AllNamed(s, sh) && Enabled(s, e) && SplitGuard(s, e) && e.RecvPred?
    requires |s.nodes| <= 256
    requires s.nodes[e.b].mode == Running && PlainMsg(Down(s, s.nodes[e.b].pred.value, e.b)[0])
    ensures Normal(Do(s, e), sh', loc') && Grows(sh, sh') && Do(s, e).nodes.Keys == s.nodes.Keys
    ensures Left(Do(s, e), sh') < Left(s, sh)
  {
    hide Locals, Streams, Tokens, Receive, LeftWith, ToGo, TokenNamed, Times;
    var x := s.nodes[e.b].pred.value;
    var m := Down(s, x, e.b)[0];
    PopDownOk(s, sh, loc, e.b);
    if m.Join? {
      DeliveredCarried(s, e);
    }
    IsMember(s, sh, e.b);
    PredTaken(s, sh, e.b, Hand(s, sh));
    sh', loc' := HandShrinks(PopDown(s, x, e.b), sh, LocWithout(loc, m), e.b, m);
  }

  lemma PredStep(s: Net, sh: Shape, loc: map<Id, Loc>, e: Event) returns (sh': Shape, loc': map<Id, Loc>)
    requires Normal(s, sh, loc) && AllNamed(s, sh) && Enabled(s, e) && SplitGuard(s, e) && e.RecvPred?
    requires |s.nodes| <= 256
    ensures Normal(Do(s, e), sh', loc') && Grows(sh, sh') && Do(s, e).nodes.Keys == s.nodes.Keys
    ensures Left(Do(s, e), sh') < Left(s, sh)
  {
    hide Locals, Do, Tokens, LeftWith, AllNamed, Times, React;
    sh', loc' := sh, loc;
    IsMember(s, sh, e.b);
    if s.nodes[e.b].mode == JoinWait {
      AnswerOk(s, sh, loc, e);
      AnswerEffect(s, sh, e);
      AnswerShrinks(s, sh, loc, e, Hand(s, sh));
    } else {
      ReaderRuns(s, sh, e.b);
      RunningHead(s, sh, e.b);
      if Down(s, s.nodes[e.b].pred.value, e.b)[0] == Close {
        CloseOk(s, sh, loc, e);
        CloseEffect(s, sh, loc, e);
        CloseShrinks(s, sh, loc, e, Hand(s, sh));
      } else {
        sh', loc' := PlainStep(s, sh, loc, e);
      }
    }
  }

  lemma ReaderRuns(s: Net, sh: Shape, b: Id)
    requires Locals(s, sh) && Member(sh, b) && Enabled(s, RecvPred(b)) && s.nodes[b].mode != JoinWait
    ensures s.nodes[b].mode == Running
  {
    hide Tiles, PipeOk;
    assert LocalOk(s, sh, b);
  }

  /** Every event that nobody from outside starts decreases what is left to do. */
  lemma ShrinkStep(s: Net, sh: Shape, loc: map<Id, Loc>, e: Event) returns (sh': Shape, loc': map<Id, Loc>)
    requires Normal(s, sh, loc) && AllNamed(s, sh) && Enabled(s, e) && SplitGuard(s, e) && !External(e)
    requires |s.nodes| <= 256
    ensures Normal(Do(s, e), sh', loc') && AllNamed(Do(s, e), sh') && Do(s, e).nodes.Keys == s.nodes.Keys
    ensures Left(Do(s, e), sh') < Left(s, sh)
  {
    hide Locals, Do, Tokens, LeftWith, AllNamed, Times, Streams;
    sh', loc' := sh, loc;
    NothingFromAbove(s, sh, loc, e);
    match e
    case RecvUdp(_) =>
      sh', loc' := UdpStep(s, sh, loc, e);
      NamedStep(s, sh, loc, e, sh');
    case RecvPred(_) =>
      sh', loc' := PredStep(s, sh, loc, e);
      NamedStep(s, sh, loc, e, sh');
    case Accept(_) =>
      AcceptOk(s, sh, loc, e);
      AcceptKeys(s, e);
      AcceptShrinks(s, sh, e, Hand(s, sh));
      NamedStep(s, sh, loc, e, sh');
    case LeaveDone =>
    case _ =>
  }

  lemma AcceptKeys(s: Net, e: Event)
    requires Enabled(s, e) && e.Accept?
    ensures Do(s, e).nodes.Keys == s.nodes.Keys
  {
  }

  // ---- runs ----

  lemma {:induction false} BusyBounded(s: Net, sh: Shape, loc: map<Id, Loc>, es: seq<Event>)
    requires Normal(s, sh, loc) && AllNamed(s, sh) && |s.nodes| <= 256 && GuardedRun(s, es) && Busy(es)
    ensures |es| <= Left(s, sh)
    decreases |es|
  {
    hide Normal, AllNamed, Enabled, Do, SplitGuard, Left;
    if es != [] {
      BusyTail(es);
      var sh', loc' := ShrinkStep(s, sh, loc, es[0]);
      assert |Do(s, es[0]).nodes| == |Do(s, es[0]).nodes.Keys| == |s.nodes.Keys| == |s.nodes|;
      BusyBounded(Do(s, es[0]), sh', loc', es[1..]);
    }
  }

  /** In normal operation tokens name nobody, or members. */
  ghost predicate Going(s: Net) {
    !s.leaving ==> exists sh, loc :: Normal(s, sh, loc) && AllNamed(s, sh)
  }

  lemma GoingStep(s: Net, e: Event)
    requires Inv(s) && Going(s) && Enabled(s, e) && SplitGuard(s, e)
    ensures Inv(Do(s, e)) && Going(Do(s, e))
  {
    hide Inv, Normal, AllNamed, Enabled, Do, SplitGuard;
    InvStep(s, e);
    if s.leaving || e.LeaveStart? {
      if e.LeaveDone? {
        DoneHasNoToken(s, e);
      } else {
        LeavingKept(s, e);
      }
    } else {
      var sh, loc :| Normal(s, sh, loc) && AllNamed(s, sh);
      var sh', loc' := NormalStep(s, sh, loc, e);
      NamedStep(s, sh, loc, e, sh');
    }
  }

  lemma DoneHasNoToken(s: Net, e: Event)
    requires Inv(s) && s.leaving && Enabled(s, e) && e.LeaveDone? && Inv(Do(s, e))
    ensures Going(Do(s, e))
  {
    hide Inv, Normal, TokenNamed;
    LeavingSettled(s);
    var s' := Do(s, e);
    var sh, loc := NormalUnlessLeaving(s');
    forall t {:trigger Carried(s', t)} | Carried(s', t) ensures !t.Join? {
      if t.Join? {
        SameStreamsCarried(s, s', t);
      }
    }
    assert AllNamed(s', sh);
  }

  lemma {:induction false} RunGoing(s: Net, es: seq<Event>)
    requires Inv(s) && Going(s) && GuardedRun(s, es)
    ensures Inv(After(s, es)) && Going(After(s, es))
    decreases |es|
  {
    hide Inv, Going, Enabled, Do, SplitGuard;
    if es != [] {
      GoingStep(s, es[0]);
      RunGoing(Do(s, es[0]), es[1..]);
    }
  }

  lemma InitialGoing(id: Id)
    requires id != 0
    ensures Inv(Initial(id)) && Going(Initial(id)) && TokensAlive(Initial(id))
  {
    var s := Initial(id);
    var sh := InitialClean(id);
    CleanIsNormal(s, sh);
    forall t: Msg ensures !Carried(s, t) {
      NothingCarried(id, t);
    }
    assert AllNamed(s, sh);
  }

  /** No busy guarded run from s is longer. */
  ghost predicate Bounded(s: Net, bound: nat) {
    forall es {:trigger GuardedRun(s, es)} :: GuardedRun(s, es) && Busy(es) ==> |es| <= bound
  }

  /** A leave under way ends, and nothing comes after it. */
  lemma LeavingBounded(s: Net) returns (bound: nat)
    requires Inv(s) && s.leaving
    ensures Bounded(s, bound)
  {
    hide Normal, Tail, Offered, Answered, GuardedRun, LeaveLength, TailLeft, Tiles, IsRemoval, CleanNode;
    if sh, loc :| Normal(s, sh, loc) {
      NormalStays(s, sh, loc);
      assert false;
    } else if q, sh, l :| LeaveSetting(q, sh, l) && Offered(q, s, sh, l) {
      bound := OfferedBound(q, s, sh, l);
    } else if q, sh, sh', l :| AnsweredSetting(q, s, sh, sh', l) {
      bound := AnsweredBound(q, s, sh, sh', l);
    } else {
      var sh, l, p, o :| Tail(s, sh, l, p, o);
      bound := TailBound(s, sh, l, p, o);
    }
  }

  lemma NormalStays(s: Net, sh: Shape, loc: map<Id, Loc>)
    requires Normal(s, sh, loc)
    ensures !s.leaving
  {
  }

  lemma OfferedBound(q: Net, s: Net, sh: Shape, l: Id) returns (bound: nat)
    requires LeaveSetting(q, sh, l) && Offered(q, s, sh, l)
    ensures Bounded(s, bound)
  {
    hide Enabled, Do, SplitGuard, LeaveSetting, Offered, LeaveLength;
    OfferedEndsIn(q, s, sh, l, []);
    bound := LeaveLength(q, sh, l);
    forall es {:trigger GuardedRun(s, es)} | GuardedRun(s, es) && Busy(es) ensures |es| <= bound {
      OfferedEndsIn(q, s, sh, l, es);
    }
  }

  lemma AnsweredBound(q: Net, s: Net, sh: Shape, sh': Shape, l: Id) returns (bound: nat)
    requires AnsweredSetting(q, s, sh, sh', l)
    ensures Bounded(s, bound)
  {
    hide Enabled, Do, SplitGuard, AnsweredSetting, LeaveLength;
    LeaverStore(q, s, sh, sh', l);
    OldSuccessor(q, s, sh, sh', l);
    bound := LeaveLength(q, sh, l);
    forall es {:trigger GuardedRun(s, es)} | GuardedRun(s, es) && Busy(es) ensures |es| <= bound {
      AnsweredEndsIn(q, s, sh, sh', l, es);
    }
  }

  lemma TailBound(s: Net, sh: Shape, l: Id, p: Id, o: Id) returns (bound: nat)
    requires Tail(s, sh, l, p, o)
    ensures Bounded(s, bound)
  {
    hide Enabled, Do, SplitGuard, TailLeft, InSide, OutSide, Parting, DataOk;
    bound := TailLeft(s, l, p, o);
    forall es {:trigger GuardedRun(s, es)} | GuardedRun(s, es) && Busy(es) ensures |es| <= bound {
      TailEndsIn(s, sh, l, p, o, es);
    }
  }

  lemma StateBounded(s: Net) returns (bound: nat)
    requires Inv(s) && Going(s) && |s.nodes| <= 256
    ensures Bounded(s, bound)
  {
    hide Inv, Normal, AllNamed, Left, GuardedRun;
    if s.leaving {
      bound := LeavingBounded(s);
    } else {
      var sh, loc :| Normal(s, sh, loc) && AllNamed(s, sh);
      bound := Left(s, sh);
      forall es {:trigger GuardedRun(s, es)} | GuardedRun(s, es) && Busy(es) ensures |es| <= bound {
        BusyBounded(s, sh, loc, es);
      }
    }
  }

  /** Nothing goes on for ever. From every reachable state with at most 256 nodes, joiners included, in which
      any number of joins and requests or a leave may be in progress, no guarded run in which nobody starts
      anything is longer than some bound; and where such a run cannot be extended everything has drained and
      every joiner has its place. */
  lemma EverythingEnds(id: Id, es: seq<Event>) returns (bound: nat)
    requires id != 0 && GuardedRun(Initial(id), es) && |After(Initial(id), es).nodes| <= 256
    ensures var s := After(Initial(id), es);
            && Bounded(s, bound)
            && (forall es' {:trigger GuardedRun(s, es')} :: GuardedRun(s, es') && !CanProgress(After(s, es')) ==>
                  Drained(After(s, es')))
    ensures forall es': seq<Event> {:trigger GuardedRun(After(Initial(id), es), es')} ::
              GuardedRun(After(Initial(id), es), es')
              && (forall i :: 0 <= i < |es'| ==> !es'[i].ClientSend? && !es'[i].JoinStart? && !es'[i].LeaveStart?) ==>
                |es'| <= bound
  {
    hide Inv, Going, Quiescent, TokensAlive, CanProgress, GuardedRun;
    InitialGoing(id);
    RunGoing(Initial(id), es);
    RunAlive(Initial(id), es);
    var s := After(Initial(id), es);
    bound := StateBounded(s);
    forall es' {:trigger GuardedRun(s, es')} | GuardedRun(s, es') && !CanProgress(After(s, es'))
      ensures Drained(After(s, es'))
    {
      RunInv(s, es');
      RunAlive(s, es');
      StuckIsQuiescent(After(s, es'));
    }
  }

  lemma {:induction false} SnocGuarded(s: Net, es: seq<Event>, e: Event)
    requires GuardedRun(s, es) && Enabled(After(s, es), e) && SplitGuard(After(s, es), e)
    ensures GuardedRun(s, es + [e])
    decreases |es|
  {
    hide Enabled, Do, SplitGuard;
    if es == [] {
      assert es + [e] == [e] && [e][1..] == [];
    } else {
      assert (es + [e])[1..] == es[1..] + [e];
      SnocGuarded(Do(s, es[0]), es[1..], e);
    }
  }

  /** Something can happen that makes a node split a range of one value. */
  ghost predicate BreaksNext(s: Net) {
    exists e :: Progress(e) && Enabled(s, e) && !SplitGuard(s, e)
  }

  lemma {:induction false} RestFrom(s: Net, es: seq<Event>, bound: nat) returns (es': seq<Event>)
    requires Inv(s) && TokensAlive(s) && Bounded(s, bound) && GuardedRun(s, es) && Busy(es)
    ensures GuardedRun(s, es') && Busy(es') && (Drained(After(s, es')) || BreaksNext(After(s, es')))
    decreases bound - |es|
  {
    hide Inv, TokensAlive, GuardedRun, Enabled, SplitGuard, Quiescent, Do;
    es' := es;
    RunInv(s, es);
    RunAlive(s, es);
    var now := After(s, es);
    if !CanProgress(now) {
      StuckIsQuiescent(now);
    } else if !BreaksNext(now) {
      var e :| Progress(e) && Enabled(now, e);
      SnocGuarded(s, es, e);
      es' := RestFrom(s, es + [e], bound);
    }
  }

  /** So every reachable state with at most 256 nodes can come to rest, or to a split of one value. */
  lemma ComesToRest(id: Id, es: seq<Event>) returns (es': seq<Event>)
    requires id != 0 && GuardedRun(Initial(id), es) && |After(Initial(id), es).nodes| <= 256
    ensures var s := After(Initial(id), es);
            GuardedRun(s, es') && Busy(es') && (Drained(After(s, es')) || BreaksNext(After(s, es')))
    ensures var s' := After(After(Initial(id), es), es');
            (Quiescent(s') && !s'.leaving) || exists e :: Enabled(s', e) && !SplitGuard(s', e)
  {
    hide Inv, Going, TokensAlive, Quiescent, SplitGuard, Enabled;
    InitialGoing(id);
    RunGoing(Initial(id), es);
    RunAlive(Initial(id), es);
    var s := After(Initial(id), es);
    var bound := StateBounded(s);
    es' := RestFrom(s, [], bound);
  }

  // ---- one node too many ----

  lemma FullNeverSplits(s: Net, sh: Shape, j: Id, i: nat, t: nat, e: Event)
    requires TokenTravels(s, sh, j, i, t) && |sh.order| == 256 && Enabled(s, e) && !External(e)
    ensures !SplitsAt(s, e)
  {
    hide Do, Enabled, OnlyMessage, TokenAfter, SplitsAt;
    SplitsIffStops(s, sh, j, i, t, e);
    RoomIff(sh.order, sh.lo, sh.hi);
    forall x | 0 <= x < |sh.order| ensures Span(s.nodes[sh.order[x]]) <= 0 {
      assert Member(sh, sh.order[x]) && CleanNode(s, sh, sh.order[x]);
    }
    TokenStopsIff(sh.order, s.nodes, j, i);
  }

  lemma {:induction false} GoesRound(s: Net, sh: Shape, e: Event, i: nat, n: nat) returns (es: seq<Event>)
    requires Clean(s, sh) && |sh.order| == 256 && Enabled(s, e) && e.JoinStart?
    requires TokenTravels(Do(s, e), sh, e.j, i, 0)
    ensures RoundOf(s, e, es) && |es| == n + 1 && TokenTravels(After(s, es), sh, e.j, i, n)
  {
    hide Clean, Enabled, Do, TokenTravels, Quiescent;
    if n == 0 {
      es := [e];
      FirstEvent(s, e);
    } else {
      var es0 := GoesRound(s, sh, e, i, n - 1);
      SoughtNotQuiet(After(s, es0), Sought(sh, e.j, i, n - 1));
      var e' := RoundGoesOn(s, sh, e, es0);
      FullNeverSplits(After(s, es0), sh, e.j, i, n - 1, e');
      PassStep(After(s, es0), sh, e.j, i, n - 1, e');
      SnocRun(s, es0, e');
      SnocRound(s, e, es0, e');
      es := es0 + [e'];
    }
  }

  /** The bound of 256 nodes is exact: from a ring of 256 a further join has guarded runs of every length. */
  lemma FullRingGoesRound(s: Net, sh: Shape, e: Event, n: nat) returns (es: seq<Event>)
    requires Clean(s, sh) && |s.nodes| == 256 && Enabled(s, e) && e.JoinStart?
    ensures RoundOf(s, e, es) && GuardedRun(s, es) && |es| == n + 1
  {
    hide Clean, Enabled, Do, TokenTravels;
    RingSize(s, sh);
    var i := SeekStart(s, sh, e);
    es := GoesRound(s, sh, e, i, n);
    RoundGuarded(s, sh, e, es);
  }
}
