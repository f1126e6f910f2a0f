/** The split guard: it is exactly what a run needs to stay tiled, and one range is never split, guard or
    not. */
module NetGuard {
  import opened Base
  import opened Ranges
  import opened StoreSpec
  import opened NodeSpec
  import opened Network
  import opened Ring
  import opened NetInv
  import opened NetSteps
  import opened NetJoin
  import opened NetCore
  import opened NetData
  import opened NetLeave
  import opened NetTheorems
  import opened NetSafety
  import opened NetTokens
  import opened NetRuns

  // ---- without the guard ----

  /** The message of a split, taken in hand. */
  lemma SplitInHand(s: Net, sh: Shape, loc: map<Id, Loc>, e: Event) returns (loc': map<Id, Loc>)
    requires Normal(s, sh, loc) && Enabled(s, e) && SplitsAt(s, e)
    ensures var d := DeliveryOf(s, e);
            && d.rest.nodes == s.nodes && Normal(d.rest, sh, loc') && InHand(d.rest, sh, loc', d.m)
            && Splits(d.rest, d.b, d.m) && Do(s, e) == Receive(d.rest, d.b, d.m)
  {
    hide Handle, HandleJoinResponse, Emit, Depart;
    var d := DeliveryOf(s, e);
    loc' := LocWithout(loc, d.m);
    if e.RecvUdp? {
      PopUdpOk(s, sh, loc, e.p);
    } else {
      PopDownOk(s, sh, loc, e.b);
    }
  }

  /** What an observer sees of node w and the joiner right after a split. */
  lemma SplitRanges(s: Net, sh: Shape, loc: map<Id, Loc>, w: Id, m: Msg)
    requires Normal(s, sh, loc) && Splits(s, w, m) && InHand(s, sh, loc, m)
    ensures var s' := Receive(s, w, m); var n := s.nodes[w];
            && w != m.src && n.lo <= n.hi
            && RangeOf(s', w) == Some(Interval(n.lo, Mid(n.lo, n.hi)))
            && RangeOf(s', m.src) == Some(Interval(AfterMid(n.lo, n.hi), n.hi))
  {
    SplitEffect(s, sh, loc, w, m);
    assert Outsider(s, sh, m.src) && Fresh(s, m.src) && Member(sh, sh.nxt[w]);
    MemberFields(s, sh, loc, w);
    MemberRange(sh, w);
    hide Receive, Normal;
    RangesAfter(s, Receive(s, w, m), w, m.src, sh.nxt[w]);
  }

  lemma RangesAfter(s: Net, s': Net, w: Id, j: Id, o: Id)
    requires AfterSplit(s, s', w, j, o) && w != j && Fresh(s, j)
    ensures var n := s.nodes[w];
            && RangeOf(s', w) == Some(Interval(n.lo, Mid(n.lo, n.hi)))
            && RangeOf(s', j) == Some(Interval(AfterMid(n.lo, n.hi), n.hi))
  {
    hide Inserts, Keep, Outside, Mid, AfterMid, Announced;
    assert Pipe(s', j) == [w] by {
      assert Backlog(s', j) == [] + [w];
    }
    assert Down(s', w, j) == Handover(s.nodes[w], o);
  }

  lemma MemberRange(sh: Shape, w: Id)
    requires ShapeOk(sh) && Member(sh, w)
    ensures sh.lo[w] <= sh.hi[w]
  {
    var i := IndexOf(sh, w);
  }

  lemma Adjacent(s: Net, order: seq<Id>, i: nat)
    requires Tiled(s, order) && i + 1 < |order|
    ensures RangeOf(s, order[i]).Some? && RangeOf(s, order[i + 1]).Some?
    ensures RangeOf(s, order[i]).value.hi + 1 == RangeOf(s, order[i + 1]).value.lo
    ensures 0 <= RangeOf(s, order[i]).value.hi && RangeOf(s, order[i + 1]).value.lo <= LAST
  {
    hide RangeOf;
    var k := i + 1;
    assert order[k] == order[i + 1];
  }

  lemma Listed(s: Net, order: seq<Id>, b: Id) returns (i: nat)
    requires Tiled(s, order) && RangeOf(s, b).Some?
    ensures i < |order| && order[i] == b
    ensures 0 <= RangeOf(s, b).value.lo <= RangeOf(s, b).value.hi <= LAST
  {
    hide RangeOf;
    i :| i < |order| && order[i] == b;
  }

  /** Two parts of a range of one value do not fit into a tiling. */
  lemma SpoiltTiling(s: Net, order: seq<Id>, w: Id, j: Id, v: byte)
    requires w != j && RangeOf(s, w) == Some(Interval(v, v))
    requires RangeOf(s, j) == Some(Interval((v + 1) % 256, v))
    ensures !Tiled(s, order)
  {
    hide RangeOf, Tiled;
    if Tiled(s, order) {
      var i := Listed(s, order, j);
      var k := Listed(s, order, w);
      if i > 0 {
        Adjacent(s, order, i - 1);
      } else if i + 1 < |order| {
        Adjacent(s, order, i);
      }
    }
  }

  lemma MiddleOfOne(lo: byte, hi: byte)
    requires lo == hi
    ensures Mid(lo, hi) == lo && AfterMid(lo, hi) == (lo + 1) % 256
  {
  }

  /** A step that splits happens in normal operation. */
  lemma SplitsNormally(s: Net, e: Event)
    requires Inv(s) && Enabled(s, e) && SplitsAt(s, e)
    ensures !s.leaving
  {
    hide Inv;
    DeliveredCarried(s, e);
    if s.leaving {
      LeavingSettled(s);
    }
  }

  /** The exact condition for tiling: after any guarded run, the next event keeps the ranges tiled if and
      only if it makes no node split a range of one value. */
  lemma TiledIffGuarded(id: Id, es: seq<Event>, e: Event)
    requires id != 0 && GuardedRun(Initial(id), es) && Enabled(After(Initial(id), es), e)
    ensures var s := After(Initial(id), es);
            (exists order :: Tiled(Do(s, e), order)) <==> SplitGuard(s, e)
  {
    hide Tiled, Inv;
    var s := After(Initial(id), es);
    ReachableSafe(id, es);
    if SplitGuard(s, e) {
      InvStep(s, e);
      var order := RangesTile(Do(s, e));
    } else {
      forall order ensures !Tiled(Do(s, e), order) {
        UnguardedSpoils(s, e, order);
      }
    }
  }

  /** What the guard forbids. */
  lemma UnguardedSplit(s: Net, e: Event)
    requires Enabled(s, e) && !SplitGuard(s, e)
    ensures SplitsAt(s, e)
    ensures var d := DeliveryOf(s, e); d.b in s.nodes && s.nodes[d.b].lo >= s.nodes[d.b].hi
  {
  }

  lemma UnguardedSpoils(s: Net, e: Event, order: seq<Id>)
    requires Inv(s) && Enabled(s, e) && !SplitGuard(s, e)
    ensures !Tiled(Do(s, e), order)
  {
    hide Tiled, Inv, Do, Normal, InHand, Receive, Splits, DeliveryOf, Enabled;
    UnguardedSplit(s, e);
    SplitsNormally(s, e);
    var sh, loc := NormalUnlessLeaving(s);
    var loc' := SplitInHand(s, sh, loc, e);
    var d := DeliveryOf(s, e);
    HandSpoils(d.rest, sh, loc', d.b, d.m, order);
  }

  /** A node that splits a range of one value leaves no tiling behind. */
  lemma HandSpoils(s: Net, sh: Shape, loc: map<Id, Loc>, w: Id, m: Msg, order: seq<Id>)
    requires Normal(s, sh, loc) && Splits(s, w, m) && InHand(s, sh, loc, m) && s.nodes[w].lo >= s.nodes[w].hi
    ensures !Tiled(Receive(s, w, m), order)
  {
    hide Tiled, Normal, InHand, Receive, RangeOf, Mid, AfterMid;
    SplitRanges(s, sh, loc, w, m);
    MiddleOfOne(s.nodes[w].lo, s.nodes[w].hi);
    SpoiltTiling(Receive(s, w, m), order, w, m.src, s.nodes[w].lo);
  }

  // ---- the range [255, 255] ----

  /** The token names no node, or a ring member whose range does not start at 255. */
  ghost predicate NamesLow(s: Net, t: Msg) {
    t.Join? && t.maxId != 0 ==>
      t.maxId in s.nodes && InRing(s.nodes[t.maxId]) && s.nodes[t.maxId].lo < LAST
  }

  ghost predicate TokensLow(s: Net) {
    forall t {:trigger Carried(s, t)} :: Carried(s, t) ==> NamesLow(s, t)
  }

  /** Ring members stay, and their ranges start where they started. */
  ghost predicate StartsKept(s: Net, s': Net) {
    forall a {:trigger s.nodes[a]} {:trigger s'.nodes[a]} :: a in s.nodes && InRing(s.nodes[a]) ==>
      a in s'.nodes && InRing(s'.nodes[a]) && s'.nodes[a].lo == s.nodes[a].lo
  }

  lemma StartsStep(s: Net, sh: Shape, loc: map<Id, Loc>, e: Event)
    requires Normal(s, sh, loc) && Enabled(s, e) && !e.LeaveStart?
    ensures StartsKept(s, Do(s, e))
  {
    hide Normal, Do, Enabled, InHand, Receive, DeliveryOf, Splits, Inserts, Keep;
    if SplitsAt(s, e) {
      var loc' := SplitInHand(s, sh, loc, e);
      var d := DeliveryOf(s, e);
      SplitEffect(d.rest, sh, loc', d.b, d.m);
    } else {
      NormalFlow(s, sh, loc, e, Join(0, 0, 0));
    }
  }

  lemma LowKept(s: Net, s': Net, t: Msg)
    requires NamesLow(s, t) && StartsKept(s, s')
    ensures NamesLow(s', t)
  {
  }

  lemma PassedLow(s: Net, b: Id, m: Msg)
    requires b in s.nodes && InRing(s.nodes[b]) && m.Join? && NamesLow(s, m)
    ensures NamesLow(s, PassOn(b, s.nodes[b], m))
  {
  }

  lemma LowStep(s: Net, sh: Shape, loc: map<Id, Loc>, e: Event)
    requires Normal(s, sh, loc) && TokensLow(s) && Enabled(s, e) && !e.LeaveStart?
    ensures TokensLow(Do(s, e))
  {
    hide Normal, Do, Enabled, StartsKept, DeliveryOf, SplitsAt, Carried, NamesLow, PassOn;
    var s' := Do(s, e);
    StartsStep(s, sh, loc, e);
    forall t {:trigger Carried(s', t)} | Carried(s', t) ensures NamesLow(s', t) {
      if t.Join? {
        NormalFlow(s, sh, loc, e, t);
        LowToken(s, sh, loc, e, t);
      } else {
        NotAToken(s', t);
      }
    }
  }

  lemma NotAToken(s: Net, t: Msg)
    requires !t.Join?
    ensures NamesLow(s, t)
  {
  }

  lemma LowToken(s: Net, sh: Shape, loc: map<Id, Loc>, e: Event, t: Msg)
    requires Normal(s, sh, loc) && TokensLow(s) && Enabled(s, e) && t.Join?
    requires StartsKept(s, Do(s, e)) && TokenFlow(s, Do(s, e), e, t) && Carried(Do(s, e), t)
    ensures NamesLow(Do(s, e), t)
  {
    hide Normal, Do, Enabled, StartsKept, Carried;
    if PassesToken(s, e, t) {
      var d := DeliveryOf(s, e);
      DeliveredCarried(s, e);
      PasserInRing(s, sh, loc, e, t);
      PassedLow(s, d.b, d.m);
      LowKept(s, Do(s, e), t);
    } else if Carried(s, t) {
      LowKept(s, Do(s, e), t);
    }
  }

  lemma SettledLow(s: Net)
    requires Settled(s)
    ensures TokensLow(s)
  {
  }

  lemma LowInvStep(s: Net, e: Event)
    requires Inv(s) && TokensLow(s) && Enabled(s, e) && SplitGuard(s, e)
    ensures TokensLow(Do(s, e))
  {
    hide Inv, Do, Enabled, Settled, SplitGuard, TokensLow;
    if s.leaving || e.LeaveStart? {
      InvStep(s, e);
      LeavingTokens(s, e);
    } else {
      var sh, loc := NormalUnlessLeaving(s);
      LowStep(s, sh, loc, e);
    }
  }

  lemma LeavingTokens(s: Net, e: Event)
    requires Inv(s) && Enabled(s, e) && (s.leaving || e.LeaveStart?) && Inv(Do(s, e))
    ensures TokensLow(Do(s, e))
  {
    hide Inv;
    if e.LeaveDone? {
      LeavingSettled(s);
      forall t {:trigger Carried(Do(s, e), t)} | Carried(Do(s, e), t) ensures !t.Join? {
        SameStreamsCarried(s, Do(s, e), t);
      }
    } else {
      LeavingKept(s, e);
      LeavingSettled(Do(s, e));
      SettledLow(Do(s, e));
    }
  }

  lemma {:induction false} RunLow(s: Net, es: seq<Event>)
    requires Inv(s) && TokensLow(s) && GuardedRun(s, es)
    ensures TokensLow(After(s, es))
    decreases |es|
  {
    hide Inv, TokensLow, Do, Enabled;
    if es != [] {
      InvStep(s, es[0]);
      LowInvStep(s, es[0]);
      RunLow(Do(s, es[0]), es[1..]);
    }
  }

  lemma SplitterIsLow(s: Net, sh: Shape, loc: map<Id, Loc>, b: Id, m: Msg)
    requires Normal(s, sh, loc) && Splits(s, b, m) && NamesLow(s, m)
    ensures s.nodes[b].lo < LAST
  {
    MemberFields(s, sh, loc, b);
    if s.nodes[b].pred.None? {
      AloneIff(sh, b);
    }
  }

  /** No node is ever made to split the range [255, 255], on which the two implementations differ: not
      after any guarded run, and not by an event that breaks the guard. */
  lemma LastRangeNotSplit(id: Id, es: seq<Event>, e: Event)
    requires id != 0 && GuardedRun(Initial(id), es)
    requires Enabled(After(Initial(id), es), e) && SplitsAt(After(Initial(id), es), e)
    ensures var s := After(Initial(id), es);
            var b := DeliveryOf(s, e).b; b in s.nodes && s.nodes[b].lo < LAST
  {
    hide Inv, Do, Enabled, TokensLow;
    var s := After(Initial(id), es);
    ReachableSafe(id, es);
    InitialLow(id);
    RunLow(Initial(id), es);
    SplitsNormally(s, e);
    var sh, loc := NormalUnlessLeaving(s);
    DeliveredLow(s, e);
    SplitterIsLow(s, sh, loc, DeliveryOf(s, e).b, DeliveryOf(s, e).m);
  }

  lemma DeliveredLow(s: Net, e: Event)
    requires TokensLow(s) && Enabled(s, e) && SplitsAt(s, e)
    ensures NamesLow(s, DeliveryOf(s, e).m) && Splits(s, DeliveryOf(s, e).b, DeliveryOf(s, e).m)
  {
    hide NamesLow, Enabled, Splits;
    DeliveredCarried(s, e);
  }

  lemma InitialLow(id: Id)
    requires id != 0
    ensures Inv(Initial(id)) && TokensLow(Initial(id))
  {
    var sh := InitialClean(id);
    CleanIsNormal(Initial(id), sh);
    forall t: Msg ensures !Carried(Initial(id), t) {
      NothingCarried(id, t);
    }
  }
}
