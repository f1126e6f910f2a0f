/** A leave ends: whatever the scheduler does, it takes a number of events that only depends on the number
    of entries the leaver had. */
module NetDrainLeave {
  import opened Base
  import opened StoreSpec
  import opened NodeSpec
  import opened Network
  import opened Ring
  import opened NetLeave
  import opened NetTail
  import opened NetTheorems
  import opened NetRoundTrip

  /** Everything that still has to happen in the tail of a leave: the reads, the accept, the end. */
  ghost function TailLeft(s: Net, l: Id, p: Id, o: Id): nat
    requires o in s.nodes
  {
    |Down(s, l, o)| + |Up(s, p, l)| + (if p != o && s.nodes[o].pred != Some(p) then 1 else 0) + 1
  }

  lemma DownLeft(s: Net, sh: Shape, l: Id, p: Id, o: Id)
    requires Tail(s, sh, l, p, o) && Enabled(s, RecvPred(o)) && o in s.nodes
    ensures o in Do(s, RecvPred(o)).nodes && TailLeft(Do(s, RecvPred(o)), l, p, o) == TailLeft(s, l, p, o) - 1
  {
    hide Do, Enabled, Parting, InSide, OutSide, DataOk, Tiles, Linked, Faults;
    TailEvents(s, sh, l, p, o, RecvPred(o));
    var s' := Do(s, RecvPred(o));
    if Down(s, l, o)[0].Insert? {
      AbsorbDownEffect(s, sh, l, p, o);
      assert Down(s', l, o) == Down(s, l, o)[1..] && Up(s', p, l) == Up(s, p, l);
    } else {
      LastDownEffect(s, sh, l, p, o);
      assert Down(s', l, o) == [] && Up(s', p, l) == Up(s, p, l);
      assert s.nodes[o].pred == Some(l) && l != p;
    }
  }

  lemma UpLeft(s: Net, sh: Shape, l: Id, p: Id, o: Id)
    requires Tail(s, sh, l, p, o) && Enabled(s, RecvSucc(p)) && o in s.nodes
    ensures o in Do(s, RecvSucc(p)).nodes && TailLeft(Do(s, RecvSucc(p)), l, p, o) == TailLeft(s, l, p, o) - 1
  {
    hide Do, Enabled, Parting, InSide, OutSide, DataOk, Tiles;
    TailEvents(s, sh, l, p, o, RecvSucc(p));
    var s' := Do(s, RecvSucc(p));
    if Up(s, p, l)[0].Insert? {
      AbsorbUpEffect(s, sh, l, p, o);
      assert Up(s', p, l) == Up(s, p, l)[1..] && Down(s', l, o) == Down(s, l, o);
    } else {
      LastUpEffect(s, sh, l, p, o);
      assert Up(s', p, l) == [] && Down(s', l, o) == Down(s, l, o);
    }
  }

  lemma AcceptLeft(s: Net, sh: Shape, l: Id, p: Id, o: Id)
    requires Tail(s, sh, l, p, o) && Enabled(s, Accept(o)) && o in s.nodes
    ensures o in Do(s, Accept(o)).nodes && TailLeft(Do(s, Accept(o)), l, p, o) == TailLeft(s, l, p, o) - 1
  {
    hide Parting, OutSide, DataOk, Tiles;
    TailEvents(s, sh, l, p, o, Accept(o));
    TailMember(s, sh, l, p, o, o);
    var s' := Do(s, Accept(o));
    assert Down(s', l, o) == Down(s, l, o) && Up(s', p, l) == Up(s, p, l);
  }

  lemma QuietTail(s: Net, sh: Shape, l: Id, p: Id, o: Id)
    requires Tail(s, sh, l, p, o) && Quiescent(s) && o in s.nodes
    ensures TailLeft(s, l, p, o) == 1
  {
    hide OutSide, DataOk, Tiles;
    assert Down(s, l, o) == [] && Up(s, p, l) == [] && Backlog(s, o) == [];
    assert Closed(s, l, o);
    TailMember(s, sh, l, p, o, o);
  }

  /** Every event of the tail brings it nearer to its end by one. */
  lemma TailShrinks(s: Net, sh: Shape, l: Id, p: Id, o: Id, e: Event)
    requires Tail(s, sh, l, p, o) && Enabled(s, e) && o in s.nodes
    ensures if e.LeaveDone? then TailLeft(s, l, p, o) == 1
            else o in Do(s, e).nodes && TailLeft(Do(s, e), l, p, o) == TailLeft(s, l, p, o) - 1
  {
    hide Tail, Do, Enabled, TailLeft;
    TailEvents(s, sh, l, p, o, e);
    match e
    case RecvPred(_) => DownLeft(s, sh, l, p, o);
    case RecvSucc(_) => UpLeft(s, sh, l, p, o);
    case Accept(_) => AcceptLeft(s, sh, l, p, o);
    case LeaveDone =>
      DoneIsQuiet(s);
      QuietTail(s, sh, l, p, o);
    case _ =>
  }

  lemma DoneIsQuiet(s: Net)
    requires Enabled(s, LeaveDone)
    ensures Quiescent(s)
  {
  }

  /** A run that stops short of the end is still leaving, and not longer than what was left. */
  lemma {:induction false} TailEndsIn(s: Net, sh: Shape, l: Id, p: Id, o: Id, es: seq<Event>)
    requires Tail(s, sh, l, p, o) && o in s.nodes && IsRun(s, es) && Busy(es)
    ensures |es| <= TailLeft(s, l, p, o)
    ensures !After(s, es).leaving <==> |es| == TailLeft(s, l, p, o)
    decreases |es|
  {
    hide Do, Enabled, TailLeft, Clean;
    if es == [] {
      TailNotDone(s, sh, l, p, o);
    } else {
      BusyTail(es);
      TailShrinks(s, sh, l, p, o, es[0]);
      TailStep(s, sh, l, p, o, es[0]);
      if es[0].LeaveDone? {
        DoneNotLeaving(s);
        if es[1..] != [] {
          BusyTail(es[1..]);
          CleanIsIdle(Do(s, es[0]), sh, es[1..][0]);
        }
      } else {
        TailEndsIn(Do(s, es[0]), sh, l, p, o, es[1..]);
      }
    }
  }

  lemma TailNotDone(s: Net, sh: Shape, l: Id, p: Id, o: Id)
    requires Tail(s, sh, l, p, o) && o in s.nodes
    ensures s.leaving && TailLeft(s, l, p, o) > 0
  {
  }

  lemma DoneNotLeaving(s: Net)
    requires Enabled(s, LeaveDone)
    ensures !Do(s, LeaveDone).leaving
  {
  }

  // ---- the whole round ----

  lemma {:induction false} InsertsCount(keys: seq<Ssn>, vals: map<Ssn, Value>)
    requires forall k :: k in keys ==> k in vals
    ensures |Inserts(keys, vals)| == |keys|
  {
    if keys != [] {
      assert keys[0] in vals && forall k :: k in keys[1..] ==> k in keys;
      InsertsCount(keys[1..], vals);
    }
  }

  lemma WordsCount(n: Node)
    requires StoreOk(n.store)
    ensures |LastDown(n)| + |LastUp(n)| == |n.store.keys| + 2
  {
    InsertsCount(n.store.keys, n.store.vals);
  }

  lemma DepartedLeft(s: Net, s': Net, l: Id, p: Id, o: Id)
    requires Departed(s, s', l, p, o) && StoreOk(s.nodes[l].store) && l != p && l != o
    requires o in s.nodes && s.nodes[o].pred == Some(l)
    ensures o in s'.nodes && TailLeft(s', l, p, o) == |s.nodes[l].store.keys| + 3 + (if p != o then 1 else 0)
  {
    WordsCount(s.nodes[l]);
    hide LastDown, LastUp, StoreOk;
    assert Down(s', l, o) == LastDown(s.nodes[l]) && Up(s', p, l) == LastUp(s.nodes[l]);
  }

  /** What is left when the leaver has gone. */
  lemma DepartLeft(q: Net, s: Net, sh: Shape, sh': Shape, l: Id)
    requires AnsweredSetting(q, s, sh, sh', l)
    ensures l in q.nodes && l in sh.prv && l in sh.nxt
    ensures Enabled(s, LeaverReads(sh, l))
    ensures var p, o := sh.prv[l], sh.nxt[l];
            var s' := Do(s, LeaverReads(sh, l));
            && Departed(s, s', l, p, o) && o in s'.nodes
            && TailLeft(s', l, p, o) == |q.nodes[l].store.keys| + 3 + (if p != o then 1 else 0)
  {
    LeaverStore(q, s, sh, sh', l);
    OldSuccessor(q, s, sh, sh', l);
    hide Do, Enabled, AnsweredSetting, Departed, TailLeft;
    FarewellEffect(q, s, sh, sh', l);
    DepartedLeft(s, Do(s, LeaverReads(sh, l)), l, sh.prv[l], sh.nxt[l]);
  }

  lemma LeaverStore(q: Net, s: Net, sh: Shape, sh': Shape, l: Id)
    requires AnsweredSetting(q, s, sh, sh', l)
    ensures l in q.nodes && l in s.nodes && s.nodes[l].store == q.nodes[l].store && StoreOk(s.nodes[l].store)
  {
    hide Tiles, IsRemoval;
    assert CleanNode(q, sh, l);
  }

  lemma OldSuccessor(q: Net, s: Net, sh: Shape, sh': Shape, l: Id)
    requires AnsweredSetting(q, s, sh, sh', l)
    ensures l in sh.nxt && l in sh.prv && sh.nxt[l] in s.nodes && sh.nxt[l] != l && sh.prv[l] != l
    ensures s.nodes[sh.nxt[l]].pred == Some(l)
  {
    hide Tiles, Answered, CleanNode, Still;
    var o := sh.nxt[l];
    assert Member(sh, l) && Member(sh, o) && sh.prv[o] == l;
    RemovalViews(sh, sh', l, o);
    TailData(q, s, sh, sh', l, o);
    TailLinks(q, s, sh, sh', l, o);
  }

  /** How many events a leave takes: the start, the offer, the answer, a read for every entry, two last
      words, an accept unless only one node is left, and the end. */
  ghost function LeaveLength(s: Net, sh: Shape, l: Id): nat
    requires l in s.nodes && l in sh.nxt && l in sh.prv
  {
    |s.nodes[l].store.keys| + 6 + (if sh.prv[l] != sh.nxt[l] then 1 else 0)
  }

  lemma AnsweredEndsIn(q: Net, s: Net, sh: Shape, sh': Shape, l: Id, es: seq<Event>)
    requires AnsweredSetting(q, s, sh, sh', l) && IsRun(s, es) && Busy(es)
    ensures l in q.nodes && |es| <= LeaveLength(q, sh, l) - 2
    ensures !After(s, es).leaving <==> |es| == LeaveLength(q, sh, l) - 2
  {
    hide Do, Enabled, Departed, Tail, TailLeft, Answered, LeaveSetting, ShapeOk, IsRemoval;
    DepartLeft(q, s, sh, sh', l);
    if es == [] {
      AnsweredLeaving(q, s, sh, sh', l);
    } else {
      BusyTail(es);
      LeaverOnly(q, s, sh, sh', l, es[0]);
      DepartTail(q, s, Do(s, es[0]), sh, sh', l);
      TailEndsIn(Do(s, es[0]), sh', l, sh.prv[l], sh.nxt[l], es[1..]);
    }
  }

  lemma AnsweredLeaving(q: Net, s: Net, sh: Shape, sh': Shape, l: Id)
    requires AnsweredSetting(q, s, sh, sh', l)
    ensures s.leaving
  {
  }

  lemma LeaverOnly(q: Net, s: Net, sh: Shape, sh': Shape, l: Id, e: Event)
    requires AnsweredSetting(q, s, sh, sh', l) && Enabled(s, e)
    ensures e == LeaverReads(sh, l)
  {
    hide Enabled, Answered, LeaveSetting, IsRemoval, ShapeOk;
    OnlyLeaverReads(q, s, sh, sh', l, e);
  }

  lemma HeirAnswers(q: Net, s: Net, sh: Shape, l: Id) returns (sh': Shape)
    requires LeaveSetting(q, sh, l) && Offered(q, s, sh, l)
    ensures Enabled(s, HeirReads(sh, l)) && AnsweredSetting(q, Do(s, HeirReads(sh, l)), sh, sh', l)
  {
    hide Do, Enabled, Offered, Answered, Clean, IsRemoval;
    sh' := RemovedShape(q, sh, l);
    if sh.lo[l] == 0 {
      AnswerDown(q, s, sh, sh', l);
    } else {
      AnswerUp(q, s, sh, sh', l);
    }
  }

  lemma OfferedEndsIn(q: Net, s: Net, sh: Shape, l: Id, es: seq<Event>)
    requires LeaveSetting(q, sh, l) && Offered(q, s, sh, l) && IsRun(s, es) && Busy(es)
    ensures l in sh.nxt && l in sh.prv && l in q.nodes && |es| <= LeaveLength(q, sh, l) - 1
    ensures !After(s, es).leaving <==> |es| == LeaveLength(q, sh, l) - 1
  {
    if es == [] {
      assert s.leaving;
    } else {
      hide Do, Enabled, AnsweredSetting, Clean, Offered;
      BusyTail(es);
      OnlyHeirReads(q, s, sh, l, es[0]);
      var sh' := HeirAnswers(q, s, sh, l);
      AnsweredEndsIn(q, Do(s, es[0]), sh, sh', l, es[1..]);
    }
  }

  /** Every leave drains: no schedule makes it last longer than its length, and it has drained exactly
      when that many events have happened. */
  lemma LeaveEnds(s: Net, sh: Shape, es: seq<Event>)
    requires Clean(s, sh) && LeaveRound(s, es)
    ensures var l := es[0].l;
            && l in s.nodes && l in sh.nxt && l in sh.prv
            && |es| <= LeaveLength(s, sh, l)
            && (!After(s, es).leaving <==> |es| == LeaveLength(s, sh, l))
  {
    hide Do, Enabled, Offered, Clean, LeaveSetting;
    var l := es[0].l;
    LeaverMember(s, sh, es[0]);
    OfferEffect(s, sh, l);
    OfferedEndsIn(s, Do(s, es[0]), sh, l, es[1..]);
  }

  lemma LeaverMember(s: Net, sh: Shape, e: Event)
    requires Clean(s, sh) && Enabled(s, e) && e.LeaveStart?
    ensures Member(sh, e.l) && e.l in s.nodes && e.l in sh.prv && e == LeaveStart(e.l)
  {
    assert Member(sh, e.l) && CleanNode(s, sh, e.l);
  }
}
