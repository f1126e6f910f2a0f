/** The end of a leave: the heir stores the leaver's entries, the neighbours read the leaver's last
    words in either order, find each other, and the ring is clean again. */
module NetTail {
  import opened Base
  import opened Hash
  import opened Ranges
  import opened StoreSpec
  import opened NodeSpec
  import opened Network
  import opened NetViews
  import opened Ring
  import opened NetLeave

  lemma TailMember(s: Net, sh: Shape, l: Id, p: Id, o: Id, b: Id)
    requires Tail(s, sh, l, p, o) && b in s.nodes
    ensures Member(sh, b) && DataOk(s.nodes[b], sh.lo[b], sh.hi[b])
    ensures p in s.nodes && o in s.nodes && InSide(s, sh, l, p, o, b) && OutSide(s, sh, l, p, o, b)
    ensures sh.prv[o] == p && (p == o <==> sh.nxt[b] == b) && (p == o ==> b == p)
    ensures s.nodes[b].lo == 0 && s.nodes[b].hi == LAST <==> p == o
  {
    assert Member(sh, b) && Member(sh, p);
    AloneIff(sh, b);
    AloneIff(sh, p);
    var i := IndexOf(sh, b);
    var k := IndexOf(sh, p);
  }

  /** Nothing else can happen before the leave has drained. */
  lemma TailEvents(s: Net, sh: Shape, l: Id, p: Id, o: Id, e: Event)
    requires Tail(s, sh, l, p, o) && Enabled(s, e)
    ensures e == RecvPred(o) || e == RecvSucc(p) || e == Accept(o) || e == LeaveDone
    ensures e == RecvPred(o) ==> !Closed(s, l, o) && Down(s, l, o) != [] && s.nodes[o].mode == Running
    ensures e == RecvSucc(p) ==> !Relinked(s, l, p) && Up(s, p, l) != [] && s.nodes[p].mode == Running
    ensures e == Accept(o) ==> p != o && s.nodes[o].mode == AwaitPred && Backlog(s, o) == [p] && Relinked(s, l, p)
  {
    TailMember(s, sh, l, p, o, p);
    if e.RecvPred? || e.RecvSucc? || e.Accept? {
      TailMember(s, sh, l, p, o, e.b);
    }
  }

  // ---- the heir stores an entry ----

  ghost predicate Absorbed(s: Net, s': Net, b: Id, m: Msg) {
    && m.Insert? && b in s.nodes && s'.nodes == s.nodes[b := s.nodes[b].(store := Put(s.nodes[b].store, m.k, m.v))]
    && s'.backlog == s.backlog && s'.udp == s.udp && s'.leaving == s.leaving
  }

  ghost predicate SameTail(s: Net, s': Net, sh: Shape, l: Id, p: Id, o: Id, b: Id)
    requires b in s'.nodes && p in s'.nodes && o in s'.nodes && b in sh.prv && b in sh.nxt && b in sh.lo && b in sh.hi
  {
    DataOk(s'.nodes[b], sh.lo[b], sh.hi[b]) && InSide(s', sh, l, p, o, b) && OutSide(s', sh, l, p, o, b)
  }

  lemma AbsorbMembers(s: Net, s': Net, sh: Shape, l: Id, p: Id, o: Id, b: Id, m: Msg, c: Id)
    requires Tail(s, sh, l, p, o) && Absorbed(s, s', b, m) && InRange(HashOf(m.k), sh.lo[b], sh.hi[b]) && Member(sh, c)
    ensures p in s'.nodes && o in s'.nodes && SameTail(s, s', sh, l, p, o, c)
  {
    TailMember(s, sh, l, p, o, c);
    assert Backlog(s', c) == Backlog(s, c);
    if c == b {
      StoreOpsKeepAgreement(s.nodes[b].store, m.k, m.v, 0, 0);
    }
  }

  lemma PartingRest(ch: seq<Msg>, last: Msg, lo: int, hi: int)
    requires Parting(ch, last, lo, hi) && ch[0] != last && !last.Insert?
    ensures |ch| > 1 && Parting(ch[1..], last, lo, hi)
    ensures ch[0].Insert? && InRange(HashOf(ch[0].k), lo, hi)
  {
  }

  lemma AbsorbedNode(b: Id, n: Node, m: Msg)
    requires m.Insert? && Owns(n, m.k)
    ensures Handle(b, n, m) == (n.(store := Put(n.store, m.k, m.v)), SILENT)
  {
  }

  lemma AbsorbDownEffect(s: Net, sh: Shape, l: Id, p: Id, o: Id)
    requires Tail(s, sh, l, p, o) && Enabled(s, RecvPred(o)) && Down(s, l, o)[0].Insert?
    ensures !Faults(s, RecvPred(o)) && !Closed(s, l, o)
    ensures var s' := Do(s, RecvPred(o));
            Absorbed(s, s', o, Down(s, l, o)[0]) && s' == PopDown(s, l, o).(nodes := s'.nodes)
    ensures InRange(HashOf(Down(s, l, o)[0].k), sh.lo[o], sh.hi[o])
    ensures Parting(Down(s, l, o)[1..], Close, sh.lo[o], sh.hi[o])
  {
    TailEvents(s, sh, l, p, o, RecvPred(o));
    TailMember(s, sh, l, p, o, o);
    PartingRest(Down(s, l, o), Close, sh.lo[o], sh.hi[o]);
    AbsorbedNode(o, s.nodes[o], Down(s, l, o)[0]);
  }

  lemma AbsorbUpEffect(s: Net, sh: Shape, l: Id, p: Id, o: Id)
    requires Tail(s, sh, l, p, o) && Enabled(s, RecvSucc(p)) && Up(s, p, l)[0].Insert?
    ensures !Faults(s, RecvSucc(p)) && !Relinked(s, l, p)
    ensures var s' := Do(s, RecvSucc(p)); Absorbed(s, s', p, Up(s, p, l)[0]) && s' == PopUp(s, p, l).(nodes := s'.nodes)
    ensures InRange(HashOf(Up(s, p, l)[0].k), sh.lo[p], sh.hi[p])
    ensures Parting(Up(s, p, l)[1..], Leaving(o), sh.lo[p], sh.hi[p])
  {
    TailEvents(s, sh, l, p, o, RecvSucc(p));
    TailMember(s, sh, l, p, o, p);
    PartingRest(Up(s, p, l), Leaving(o), sh.lo[p], sh.hi[p]);
    AbsorbedNode(p, s.nodes[p], Up(s, p, l)[0]);
  }

  lemma AbsorbMembersAll(s: Net, s': Net, sh: Shape, l: Id, p: Id, o: Id, b: Id, m: Msg)
    requires Tail(s, sh, l, p, o) && Member(sh, b) && Absorbed(s, s', b, m) && InRange(HashOf(m.k), sh.lo[b], sh.hi[b])
    ensures p in s'.nodes && o in s'.nodes && s'.nodes.Keys == s.nodes.Keys
    ensures Closed(s', l, o) == Closed(s, l, o) && Relinked(s', l, p) == Relinked(s, l, p)
    ensures forall c {:trigger Member(sh, c)} :: Member(sh, c) ==> SameTail(s, s', sh, l, p, o, c)
  {
    forall c {:trigger Member(sh, c)} | Member(sh, c) ensures SameTail(s, s', sh, l, p, o, c) {
      AbsorbMembers(s, s', sh, l, p, o, b, m, c);
    }
  }

  /** The streams of a tail, with what is still on them. */
  ghost predicate TailStreams(s: Net, sh: Shape, l: Id, p: Id, o: Id)
    requires p in s.nodes && o in s.nodes && o in sh.lo && o in sh.hi && p in sh.lo && p in sh.hi
  {
    && (forall x: Id, y: Id {:trigger Down(s, x, y)} ::
          if (x, y) == (l, o) && !Closed(s, l, o) then Parting(Down(s, x, y), Close, sh.lo[o], sh.hi[o])
          else Down(s, x, y) == [])
    && (forall x: Id, y: Id {:trigger Up(s, x, y)} ::
          if (x, y) == (p, l) && !Relinked(s, l, p) then Parting(Up(s, x, y), Leaving(o), sh.lo[p], sh.hi[p])
          else Up(s, x, y) == [])
  }

  lemma TailAgain(s: Net, s': Net, sh: Shape, l: Id, p: Id, o: Id)
    requires Tail(s, sh, l, p, o)
    requires s'.nodes.Keys == s.nodes.Keys && s'.udp == s.udp && s'.leaving == s.leaving
    requires p in s'.nodes && o in s'.nodes && TailStreams(s', sh, l, p, o)
    requires forall c {:trigger Member(sh, c)} :: Member(sh, c) ==> SameTail(s, s', sh, l, p, o, c)
    ensures Tail(s', sh, l, p, o)
  {
  }

  lemma AbsorbDownOk(s: Net, sh: Shape, l: Id, p: Id, o: Id)
    requires Tail(s, sh, l, p, o) && Enabled(s, RecvPred(o)) && Down(s, l, o)[0].Insert?
    ensures Tail(Do(s, RecvPred(o)), sh, l, p, o) && !Faults(s, RecvPred(o))
  {
    hide Do, Enabled, Faults, InSide, OutSide, DataOk, ShapeOk;
    var s' := Do(s, RecvPred(o));
    AbsorbDownEffect(s, sh, l, p, o);
    AbsorbMembersAll(s, s', sh, l, p, o, o, Down(s, l, o)[0]);
    PopDownViews(s, l, o);
    NodesViews(PopDown(s, l, o), s');
    TailAgain(s, s', sh, l, p, o);
  }

  lemma AbsorbUpOk(s: Net, sh: Shape, l: Id, p: Id, o: Id)
    requires Tail(s, sh, l, p, o) && Enabled(s, RecvSucc(p)) && Up(s, p, l)[0].Insert?
    ensures Tail(Do(s, RecvSucc(p)), sh, l, p, o) && !Faults(s, RecvSucc(p))
  {
    hide Do, Enabled, Faults, InSide, OutSide, DataOk, ShapeOk;
    var s' := Do(s, RecvSucc(p));
    AbsorbUpEffect(s, sh, l, p, o);
    AbsorbMembersAll(s, s', sh, l, p, o, p, Up(s, p, l)[0]);
    PopUpViews(s, p, l);
    NodesViews(PopUp(s, p, l), s');
    TailAgain(s, s', sh, l, p, o);
  }

  // ---- the last words, in either order ----

  lemma PartingEnd(ch: seq<Msg>, last: Msg, lo: int, hi: int)
    requires Parting(ch, last, lo, hi) && !ch[0].Insert?
    ensures ch == [last]
  {
  }

  /** o reads NET_CLOSE_CONNECTION. */
  lemma LastDownEffect(s: Net, sh: Shape, l: Id, p: Id, o: Id)
    requires Tail(s, sh, l, p, o) && Enabled(s, RecvPred(o)) && !Down(s, l, o)[0].Insert?
    ensures !Faults(s, RecvPred(o)) && Down(s, l, o) == [Close]
    ensures var s' := Do(s, RecvPred(o));
            && s'.nodes == s.nodes[o := s.nodes[o].(pred := None, mode := if p == o then Running else AwaitPred)]
            && s'.backlog == s.backlog && s'.udp == s.udp && s'.leaving == s.leaving
            && (forall x: Id, y: Id {:trigger Down(s', x, y)} :: Down(s', x, y) == [])
            && (forall x: Id, y: Id {:trigger Up(s', x, y)} :: Up(s', x, y) == Up(s, x, y))
  {
    hide Do, Enabled, Faults, Parting, DataOk;
    TailEvents(s, sh, l, p, o, RecvPred(o));
    TailMember(s, sh, l, p, o, o);
    PartingEnd(Down(s, l, o), Close, sh.lo[o], sh.hi[o]);
    ClosedViews(s, o, l);
    var s' := Do(s, RecvPred(o));
    forall x: Id, y: Id {:trigger Down(s', x, y)} ensures Down(s', x, y) == [] {
      assert (x, y) != (l, o) ==> Down(s, x, y) == [];
    }
    forall x: Id, y: Id {:trigger Up(s', x, y)} ensures Up(s', x, y) == Up(s, x, y) {
      assert Up(s, l, o) == [];
    }
  }

  lemma LastDownMember(s: Net, s': Net, sh: Shape, l: Id, p: Id, o: Id, c: Id)
    requires Tail(s, sh, l, p, o) && Member(sh, c) && o in s.nodes
    requires s.nodes[o].mode == Running && s.nodes[o].pred == Some(l)
    requires s'.nodes == s.nodes[o := s.nodes[o].(pred := None, mode := if p == o then Running else AwaitPred)]
    requires s'.backlog == s.backlog
    ensures p in s'.nodes && o in s'.nodes && SameTail(s, s', sh, l, p, o, c)
  {
    hide Parting, StoreOk, Tiles;
    TailMember(s, sh, l, p, o, c);
    assert Backlog(s', c) == Backlog(s, c);
  }

  lemma LastDownOk(s: Net, sh: Shape, l: Id, p: Id, o: Id)
    requires Tail(s, sh, l, p, o) && Enabled(s, RecvPred(o)) && !Down(s, l, o)[0].Insert?
    ensures Tail(Do(s, RecvPred(o)), sh, l, p, o) && !Faults(s, RecvPred(o))
  {
    hide Do, Enabled, Faults, Parting, DataOk, Tiles, InSide, OutSide;
    var s' := Do(s, RecvPred(o));
    LastDownEffect(s, sh, l, p, o);
    TailEvents(s, sh, l, p, o, RecvPred(o));
    assert Relinked(s', l, p) == Relinked(s, l, p);
    forall c {:trigger Member(sh, c)} | Member(sh, c) ensures SameTail(s, s', sh, l, p, o, c) {
      LastDownMember(s, s', sh, l, p, o, c);
    }
    TailAgain(s, s', sh, l, p, o);
  }

  /** What p's reading of NET_LEAVING shows: it is alone, or it connects to o. */
  ghost predicate AfterLeaving(s: Net, s': Net, p: Id, o: Id) {
    && p in s.nodes
    && s'.nodes == s.nodes[p := if p == o then s.nodes[p].(succ := None)
                                else s.nodes[p].(succ := Some(o), succAddr := o)]
    && (forall a {:trigger Backlog(s', a)} ::
          Backlog(s', a) == if a == o && p != o then Backlog(s, o) + [p] else Backlog(s, a))
    && s'.udp == s.udp && s'.leaving == s.leaving
    && (forall x: Id, y: Id {:trigger Up(s', x, y)} :: Up(s', x, y) == [])
    && (forall x: Id, y: Id {:trigger Down(s', x, y)} :: Down(s', x, y) == Down(s, x, y))
  }

  lemma LeavingReaction(r: Net, l: Id, p: Id, o: Id)
    requires p in r.nodes && r.nodes[p].mode == Running && r.nodes[p].succ == Some(l)
    ensures !React(r, p, Leaving(o)).1.fault
    ensures Receive(r, p, Leaving(o)) ==
            (if p == o then CloseLink(r, p, l).(nodes := r.nodes[p := r.nodes[p].(succ := None)])
             else Connect(CloseLink(r, p, l), p, o)
                    .(nodes := r.nodes[p := r.nodes[p].(succ := Some(o), succAddr := o)]))
  {
  }

  lemma LeavingStreams(s: Net, r: Net, s': Net, l: Id, p: Id, o: Id)
    requires Up(s, p, l) != [] && r == PopUp(s, p, l)
    requires Down(s, p, l) == [] && Down(s, p, o) == []
    requires forall x: Id, y: Id {:trigger Up(s, x, y)} :: (x, y) != (p, l) ==> Up(s, x, y) == []
    requires s'.down == CloseLink(r, p, l).down || s'.down == Connect(CloseLink(r, p, l), p, o).down
    requires s'.up == CloseLink(r, p, l).up || s'.up == Connect(CloseLink(r, p, l), p, o).up
    ensures forall x: Id, y: Id {:trigger Up(s', x, y)} :: Up(s', x, y) == []
    ensures forall x: Id, y: Id {:trigger Down(s', x, y)} :: Down(s', x, y) == Down(s, x, y)
  {
    forall x: Id, y: Id {:trigger Up(s', x, y)} ensures Up(s', x, y) == [] {
      assert (x, y) != (p, l) ==> Up(s, x, y) == [];
    }
  }

  lemma LeavingViews(s: Net, r: Net, s': Net, l: Id, p: Id, o: Id)
    requires Up(s, p, l) != [] && r == PopUp(s, p, l) && p in s.nodes && Down(s, p, l) == [] && Down(s, p, o) == []
    requires forall x: Id, y: Id {:trigger Up(s, x, y)} :: (x, y) != (p, l) ==> Up(s, x, y) == []
    requires s' == (if p == o then CloseLink(r, p, l).(nodes := r.nodes[p := r.nodes[p].(succ := None)])
                    else Connect(CloseLink(r, p, l), p, o).(
                           nodes := r.nodes[p := r.nodes[p].(succ := Some(o), succAddr := o)]))
    ensures AfterLeaving(s, s', p, o)
  {
    LeavingStreams(s, r, s', l, p, o);
    hide Down, Up;
  }

  lemma LeavingEffect(s: Net, l: Id, p: Id, o: Id)
    requires Enabled(s, RecvSucc(p)) && s.nodes[p].mode == Running && s.nodes[p].succ == Some(l)
    requires Up(s, p, l) == [Leaving(o)] && Down(s, p, l) == [] && Down(s, p, o) == []
    requires forall x: Id, y: Id {:trigger Up(s, x, y)} :: (x, y) != (p, l) ==> Up(s, x, y) == []
    ensures !Faults(s, RecvSucc(p)) && AfterLeaving(s, Do(s, RecvSucc(p)), p, o)
  {
    hide Do, Faults, React, Receive, AfterLeaving;
    var r := PopUp(s, p, l);
    ReadsSucc(s, p);
    SameReaction(r, s, p, Leaving(o));
    LeavingReaction(r, l, p, o);
    LeavingViews(s, r, Receive(r, p, Leaving(o)), l, p, o);
  }

  /** p reads NET_LEAVING. */
  lemma LastUpEffect(s: Net, sh: Shape, l: Id, p: Id, o: Id)
    requires Tail(s, sh, l, p, o) && Enabled(s, RecvSucc(p)) && !Up(s, p, l)[0].Insert?
    ensures !Faults(s, RecvSucc(p)) && Up(s, p, l) == [Leaving(o)]
    ensures AfterLeaving(s, Do(s, RecvSucc(p)), p, o)
  {
    TailEvents(s, sh, l, p, o, RecvSucc(p));
    TailMember(s, sh, l, p, o, p);
    PartingEnd(Up(s, p, l), Leaving(o), sh.lo[p], sh.hi[p]);
    assert p != l;
    LeavingEffect(s, l, p, o);
  }

  lemma LastUpMembers(s: Net, sh: Shape, l: Id, p: Id, o: Id, c: Id)
    requires Tail(s, sh, l, p, o) && Enabled(s, RecvSucc(p)) && !Up(s, p, l)[0].Insert? && Member(sh, c)
    ensures var s' := Do(s, RecvSucc(p));
            c in s'.nodes && p in s'.nodes && o in s'.nodes && SameTail(s, s', sh, l, p, o, c)
  {
    hide Do, Parting, StoreOk, Tiles, Enabled;
    var s' := Do(s, RecvSucc(p));
    LastUpEffect(s, sh, l, p, o);
    TailEvents(s, sh, l, p, o, RecvSucc(p));
    TailMember(s, sh, l, p, o, c);
    assert o != l;
    assert Backlog(s', c) == if c == o && p != o then Backlog(s, o) + [p] else Backlog(s, c);
    assert Relinked(s', l, p);
    assert [] + [p] == [p];
  }

  lemma LastUpOk(s: Net, sh: Shape, l: Id, p: Id, o: Id)
    requires Tail(s, sh, l, p, o) && Enabled(s, RecvSucc(p)) && !Up(s, p, l)[0].Insert?
    ensures Tail(Do(s, RecvSucc(p)), sh, l, p, o) && !Faults(s, RecvSucc(p))
  {
    hide Tiles, DataOk, InSide, OutSide, DeliveryOf, Do, Enabled, Handle, AfterLeaving;
    var s' := Do(s, RecvSucc(p));
    LastUpEffect(s, sh, l, p, o);
    assert o != l && Member(sh, p);
    assert Closed(s', l, o) == Closed(s, l, o) && Relinked(s', l, p);
    forall c {:trigger Member(sh, c)} | Member(sh, c) ensures SameTail(s, s', sh, l, p, o, c) {
      LastUpMembers(s, sh, l, p, o, c);
    }
    TailAgain(s, s', sh, l, p, o);
  }

  lemma AcceptTailOk(s: Net, sh: Shape, l: Id, p: Id, o: Id)
    requires Tail(s, sh, l, p, o) && Enabled(s, Accept(o))
    ensures Tail(Do(s, Accept(o)), sh, l, p, o)
  {
    hide Receive, TailStreams, Inserts;
    var s' := Do(s, Accept(o));
    TailEvents(s, sh, l, p, o, Accept(o));
    assert p != l && Relinked(s', l, p) && Closed(s', l, o);
    TailMember(s, sh, l, p, o, o);
    assert Closed(s, l, o);
    forall c {:trigger Member(sh, c)} | Member(sh, c) ensures SameTail(s, s', sh, l, p, o, c) {
      TailMember(s, sh, l, p, o, c);
      assert c != o ==> Backlog(s', c) == Backlog(s, c);
    }
    forall x: Id, y: Id {:trigger Down(s', x, y)} ensures Down(s', x, y) == Down(s, x, y) {}
    forall x: Id, y: Id {:trigger Up(s', x, y)} ensures Up(s', x, y) == Up(s, x, y) {}
    TailAgain(s, s', sh, l, p, o);
  }

  /** Once drained, the ring without the leaver is clean. */
  lemma TailEnds(s: Net, sh: Shape, l: Id, p: Id, o: Id)
    requires Tail(s, sh, l, p, o) && Quiescent(s)
    ensures Clean(s.(leaving := false), sh)
  {
    hide Tiles, OutSide;
    var s' := s.(leaving := false);
    assert Closed(s, l, o) by { assert Down(s, l, o) == []; }
    assert Relinked(s, l, p) by { assert Up(s, p, l) == []; }
    forall b {:trigger Member(sh, b)} | Member(sh, b) ensures CleanNode(s', sh, b) {
      TailMember(s, sh, l, p, o, b);
      assert Backlog(s', b) == Backlog(s, b);
    }
    assert Still(s') by {
      forall x: Id, y: Id {:trigger Down(s', x, y)} ensures Down(s', x, y) == [] { assert Down(s, x, y) == []; }
      forall x: Id, y: Id {:trigger Up(s', x, y)} ensures Up(s', x, y) == [] { assert Up(s, x, y) == []; }
    }
  }

  lemma TailStep(s: Net, sh: Shape, l: Id, p: Id, o: Id, e: Event)
    requires Tail(s, sh, l, p, o) && Enabled(s, e)
    ensures !Faults(s, e)
    ensures if e.LeaveDone? then Clean(Do(s, e), sh) else Tail(Do(s, e), sh, l, p, o)
  {
    TailEvents(s, sh, l, p, o, e);
    match e
    case RecvPred(_) =>
      if Down(s, l, o)[0].Insert? {
        AbsorbDownOk(s, sh, l, p, o);
      } else {
        LastDownOk(s, sh, l, p, o);
      }
    case RecvSucc(_) =>
      if Up(s, p, l)[0].Insert? {
        AbsorbUpOk(s, sh, l, p, o);
      } else {
        LastUpOk(s, sh, l, p, o);
      }
    case Accept(_) => AcceptTailOk(s, sh, l, p, o);
    case LeaveDone => TailEnds(s, sh, l, p, o);
    case _ =>
  }
}
