/** Whole runs again: with one join at a time the split guard always holds, and no reachable state is
    stuck. */
module NetRuns {
  import opened Base
  import opened NodeSpec
  import opened Network
  import opened Ring
  import opened NetInv
  import opened NetSteps
  import opened NetCore
  import opened NetData
  import opened NetLeave
  import opened NetTail
  import opened NetTheorems
  import opened NetSafety
  import opened NetTokens

  /** Every node is in the ring and no join is under way. */
  ghost predicate Settled(s: Net) {
    AllInRing(s) && forall t {:trigger Carried(s, t)} :: Carried(s, t) ==> !t.Join?
  }

  lemma OfferedSettled(q: Net, s: Net, sh: Shape, l: Id)
    requires LeaveSetting(q, sh, l) && Offered(q, s, sh, l)
    ensures Settled(s) && s.leaving
  {
    forall b | b in s.nodes ensures InRing(s.nodes[b]) {
      assert Member(sh, b) && CleanNode(q, sh, b);
    }
  }

  lemma AnsweredInRing(q: Net, s: Net, sh: Shape, sh': Shape, l: Id, b: Id)
    requires AnsweredSetting(q, s, sh, sh', l) && b in s.nodes
    ensures InRing(s.nodes[b])
  {
    assert b in q.nodes;
    assert Member(sh, b) && CleanNode(q, sh, b);
  }

  /** Only the answer is in flight. */
  lemma AnsweredCarries(q: Net, s: Net, sh: Shape, sh': Shape, l: Id, t: Msg)
    requires l in sh.nxt && l in sh.prv && l in sh.lo && l in q.nodes && Heir(sh, l) in q.nodes
    requires Heir(sh, l) in sh'.lo && Heir(sh, l) in sh'.hi
    requires Answered(q, s, sh, sh', l) && Carried(s, t)
    ensures t == NewRangeResponse
  {
    if OnDown(s, t) {
      var x: Id, y: Id :| t in Down(s, x, y);
    } else if OnUp(s, t) {
      var x: Id, y: Id :| t in Up(s, x, y);
    }
  }

  lemma AnsweredSettled(q: Net, s: Net, sh: Shape, sh': Shape, l: Id)
    requires AnsweredSetting(q, s, sh, sh', l)
    ensures Settled(s) && s.leaving
  {
    forall b | b in s.nodes ensures InRing(s.nodes[b]) {
      AnsweredInRing(q, s, sh, sh', l, b);
    }
    forall t | Carried(s, t) ensures !t.Join? {
      AnsweredCarries(q, s, sh, sh', l, t);
    }
  }

  lemma PartingHasNoToken(ch: seq<Msg>, last: Msg, lo: int, hi: int, t: Msg)
    requires Parting(ch, last, lo, hi) && !last.Join? && t in ch
    ensures !t.Join?
  {
    var i :| 0 <= i < |ch| && ch[i] == t;
  }

  lemma TailSettled(s: Net, sh: Shape, l: Id, p: Id, o: Id)
    requires Tail(s, sh, l, p, o)
    ensures Settled(s) && s.leaving
  {
    forall b | b in s.nodes ensures InRing(s.nodes[b]) {
      TailMember(s, sh, l, p, o, b);
    }
    TailMember(s, sh, l, p, o, p);
    forall t | Carried(s, t) ensures !t.Join? {
      if OnDown(s, t) {
        var x: Id, y: Id :| t in Down(s, x, y);
        PartingHasNoToken(Down(s, l, o), Close, sh.lo[o], sh.hi[o], t);
      } else if OnUp(s, t) {
        var x: Id, y: Id :| t in Up(s, x, y);
        PartingHasNoToken(Up(s, p, l), Leaving(o), sh.lo[p], sh.hi[p], t);
      }
    }
  }

  lemma LeavingSettled(s: Net)
    requires Inv(s) && s.leaving
    ensures Settled(s)
  {
    if q, sh, l :| LeaveSetting(q, sh, l) && Offered(q, s, sh, l) {
      OfferedSettled(q, s, sh, l);
    } else if q, sh, sh', l :| AnsweredSetting(q, s, sh, sh', l) {
      AnsweredSettled(q, s, sh, sh', l);
    } else {
      var sh, l, p, o :| Tail(s, sh, l, p, o);
      TailSettled(s, sh, l, p, o);
    }
  }

  /** The network is in normal operation or a leave is under way. */
  lemma NormalUnlessLeaving(s: Net) returns (sh: Shape, loc: map<Id, Loc>)
    requires Inv(s) && !s.leaving
    ensures Normal(s, sh, loc)
  {
    if sh0, loc0 :| Normal(s, sh0, loc0) {
      sh, loc := sh0, loc0;
    }
  }

  /** A leave stays under way until it has drained. */
  lemma LeavingKept(s: Net, e: Event)
    requires Enabled(s, e) && ((s.leaving && !e.LeaveDone?) || e.LeaveStart?)
    ensures Do(s, e).leaving
  {
    if Delivers(e) {
      var d := DeliveryOf(s, e);
      DeliveryRest(s, e);
      assert d.rest.leaving == s.leaving;
      var n := s.nodes[d.b];
      if n.mode == LeaveWait {
        EmitNodes(d.rest, d.b, n, n, Farewell(n, d.m));
      } else {
        var (n', out) := React(d.rest, d.b, d.m);
        EmitNodes(d.rest, d.b, n, n', out);
      }
    }
  }

  // ---- one join at a time ----

  /** At most one node is on its way in, and its token is truthful. */
  ghost predicate OneTruth(s: Net) {
    OneJoiner(s) && TokensTruthful(s)
  }

  lemma SettledTruth(s: Net)
    requires Settled(s)
    ensures OneTruth(s)
  {
  }

  lemma OneTruthStep(s: Net, e: Event)
    requires Inv(s) && OneTruth(s) && Enabled(s, e) && (e.JoinStart? ==> AllInRing(s))
    ensures SplitGuard(s, e) && OneTruth(Do(s, e))
  {
    if s.leaving || e.LeaveStart? {
      LeavingTruthStep(s, e);
    } else {
      var sh, loc := NormalUnlessLeaving(s);
      TruthGuards(s, sh, loc, e);
      TruthStep(s, sh, loc, e);
      OneJoinerStep(s, sh, loc, e);
    }
  }

  lemma LeavingTruthStep(s: Net, e: Event)
    requires Inv(s) && Enabled(s, e) && (s.leaving || e.LeaveStart?)
    ensures SplitGuard(s, e) && OneTruth(Do(s, e))
  {
    hide Locals, Inv, Handle, AnsweredSetting, Tail, Tokens;
    if Delivers(e) {
      LeavingSettled(s);
      DeliveredCarried(s, e);
    }
    InvStep(s, e);
    if e.LeaveDone? {
      LeavingSettled(s);
      forall t {:trigger Carried(Do(s, e), t)} | Carried(Do(s, e), t) ensures !t.Join? {
        SameStreamsCarried(s, Do(s, e), t);
      }
    } else {
      LeavingKept(s, e);
      LeavingSettled(Do(s, e));
    }
    SettledTruth(Do(s, e));
  }

  /** A run in which a node starts joining only when every other has its place in the ring. */
  ghost predicate OneJoinRun(s: Net, es: seq<Event>)
    decreases |es|
  {
    es == [] ||
    (Enabled(s, es[0]) && (es[0].JoinStart? ==> AllInRing(s)) && OneJoinRun(Do(s, es[0]), es[1..]))
  }

  lemma {:induction false} OneJoinGuards(s: Net, es: seq<Event>)
    requires Inv(s) && OneTruth(s) && OneJoinRun(s, es)
    ensures GuardedRun(s, es)
    decreases |es|
  {
    if es != [] {
      OneTruthStep(s, es[0]);
      InvStep(s, es[0]);
      OneJoinGuards(Do(s, es[0]), es[1..]);
    }
  }

  /** With at most one join outstanding the guard of every split holds by itself: a token that names a
      node carries that node's span, which is not zero. All theorems about guarded runs apply. */
  lemma OneJoinNeedsNoGuard(id: Id, es: seq<Event>)
    requires id != 0 && OneJoinRun(Initial(id), es)
    ensures GuardedRun(Initial(id), es)
  {
    var sh := InitialClean(id);
    CleanIsNormal(Initial(id), sh);
    forall t: Msg ensures !Carried(Initial(id), t) {
      NothingCarried(id, t);
    }
    SettledTruth(Initial(id));
    OneJoinGuards(Initial(id), es);
  }

  // ---- no deadlock ----

  lemma AliveInvStep(s: Net, e: Event)
    requires Inv(s) && TokensAlive(s) && Enabled(s, e) && SplitGuard(s, e)
    ensures TokensAlive(Do(s, e))
  {
    if s.leaving || e.LeaveStart? {
      InvStep(s, e);
      if e.LeaveDone? {
        LeavingSettled(s);
        assert AllInRing(Do(s, e));
      } else {
        LeavingKept(s, e);
        LeavingSettled(Do(s, e));
      }
    } else {
      var sh, loc := NormalUnlessLeaving(s);
      AliveStep(s, sh, loc, e);
    }
  }

  lemma {:induction false} RunAlive(s: Net, es: seq<Event>)
    requires Inv(s) && TokensAlive(s) && GuardedRun(s, es)
    ensures TokensAlive(After(s, es))
    decreases |es|
  {
    if es != [] {
      InvStep(s, es[0]);
      AliveInvStep(s, es[0]);
      RunAlive(Do(s, es[0]), es[1..]);
    }
  }

  /** Nothing can happen: then nothing is in flight. */
  lemma StuckIsQuiescent(s: Net)
    requires Inv(s) && TokensAlive(s) && !CanProgress(s)
    ensures Quiescent(s) && !s.leaving
  {
    NeverStuck(s);
    var sh, loc := NormalUnlessLeaving(s);
    forall b | b in s.nodes ensures s.nodes[b].mode == Running && Backlog(s, b) == [] {
      if s.nodes[b].mode == Joining && Backlog(s, b) == [] {
        assert Searching(s, b);
        NoneSearching(s, b);
      } else if !InRing(s.nodes[b]) {
        IsMemberOrServed(s, sh, loc, b);
      } else {
        RunningPipe(s, sh, loc, b);
      }
    }
  }

  lemma NoneSearching(s: Net, j: Id)
    requires s.udp == multiset{}
    requires forall x: Id, y: Id {:trigger Down(s, x, y)} :: Down(s, x, y) == []
    requires forall x: Id, y: Id {:trigger Up(s, x, y)} :: Up(s, x, y) == []
    ensures !Searching(s, j)
  {
  }

  lemma IsMemberOrServed(s: Net, sh: Shape, loc: map<Id, Loc>, b: Id)
    requires Normal(s, sh, loc) && b in s.nodes && !InRing(s.nodes[b])
    requires s.nodes[b].mode == JoinWait || Backlog(s, b) != []
    ensures CanProgress(s)
  {
    assert !Member(sh, b) ==> Outsider(s, sh, b) && Fresh(s, b);
    MemberProgress(s, sh, loc, b);
  }

  lemma FirstFinished(s: Net, b: Id, p: seq<Id>, from: Option<Id>)
    requires PipeOk(s, b, p, false, from)
    ensures |p| > 1 ==> Down(s, p[0], b) != []
  {
    if |p| > 1 {
      assert StreamOk(Rest(Down(s, p[0], b), false && 0 == 0), from.Some? && 0 == |p| - 1);
    }
  }

  /** A running node whose predecessor streams are empty has no second connection waiting. */
  lemma RunningPipe(s: Net, sh: Shape, loc: map<Id, Loc>, b: Id)
    requires Normal(s, sh, loc) && b in s.nodes && s.nodes[b].mode == Running
    requires forall x: Id, y: Id {:trigger Down(s, x, y)} :: Down(s, x, y) == []
    ensures Backlog(s, b) == []
  {
    IsMember(s, sh, b);
    assert LocalOk(s, sh, b);
    FirstFinished(s, b, Pipe(s, b), LinkFrom(s, sh.prv[b], b));
  }

  /** No deadlock: after any run something can still make progress, or everything has drained. */
  lemma NoDeadlock(id: Id, es: seq<Event>)
    requires id != 0 && GuardedRun(Initial(id), es)
    ensures var s := After(Initial(id), es);
            || (exists e: Event ::
                  (e.RecvUdp? || e.RecvPred? || e.RecvSucc? || e.Accept? || e.LeaveDone?) && Enabled(s, e))
            || (Quiescent(s) && !s.leaving)
  {
    ReachableSafe(id, es);
    var sh := InitialClean(id);
    CleanIsNormal(Initial(id), sh);
    RunAlive(Initial(id), es);
    var s := After(Initial(id), es);
    if !CanProgress(s) {
      StuckIsQuiescent(s);
    }
  }
}
