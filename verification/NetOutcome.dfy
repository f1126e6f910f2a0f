/** What a join and a leave come to, told by the fields of the nodes alone. */
module NetOutcome {
  import opened Base
  import opened Ranges
  import opened NodeSpec
  import opened Network
  import opened Ring
  import opened RingWalk
  import opened NetLeave
  import opened NetTheorems
  import opened NetMap
  import opened NetRounds
  import opened NetRoundTrip
  import opened NetReach

  /** A node has this range and is between these neighbours. */
  ghost predicate Placed(n: Node, prv: Option<Id>, lo: int, hi: int, nxt: Option<Id>) {
    n.mode == Running && n.lo == lo && n.hi == hi && n.pred == prv && n.succ == nxt
  }

  lemma RunClean(id: Id, es: seq<Event>) returns (sh: Shape)
    requires id != 0 && GuardedRun(Initial(id), es) && Drained(After(Initial(id), es))
    ensures Clean(After(Initial(id), es), sh)
  {
    hide GuardedRun, Inv, Clean;
    ReachableSafe(id, es);
    sh := QuietNormal(After(Initial(id), es));
  }

  /** The neighbour in the shape, as a link: a node that is alone has none. */
  function Link(b: Id, c: Id): Option<Id> {
    if b == c then None else Some(c)
  }

  ghost predicate Knit(sh: Shape, b: Id) {
    && b in sh.nxt && b in sh.prv && b in sh.lo && b in sh.hi && sh.nxt[b] in sh.prv && sh.prv[b] in sh.nxt
    && sh.prv[sh.nxt[b]] == b && sh.nxt[sh.prv[b]] == b
  }

  lemma CleanPlace(s: Net, sh: Shape, b: Id)
    requires Clean(s, sh) && b in sh.nxt
    ensures b in s.nodes && Knit(sh, b)
    ensures Placed(s.nodes[b], Link(b, sh.prv[b]), sh.lo[b], sh.hi[b], Link(b, sh.nxt[b]))
  {
    assert Member(sh, b) && CleanNode(s, sh, b);
    assert sh.nxt[b] == b <==> sh.prv[b] == b;
  }

  lemma CleanKeys(s: Net, sh: Shape)
    requires Clean(s, sh)
    ensures s.nodes.Keys == sh.nxt.Keys
  {
  }

  lemma InsertedPlaces(s: Net, s': Net, sh: Shape, sh': Shape, w: Id, j: Id)
    requires Clean(s, sh) && Clean(s', sh') && IsInsertion(sh, sh', w, j) && !Member(sh, j)
    ensures w in s.nodes && j !in s.nodes && s'.nodes.Keys == s.nodes.Keys + {j}
    ensures var n, mid := s.nodes[w], Mid(s.nodes[w].lo, s.nodes[w].hi);
            var alone := n.succ == None;
            && Placed(s'.nodes[w], if alone then Some(j) else n.pred, n.lo, mid, Some(j))
            && Placed(s'.nodes[j], Some(w), AfterMid(n.lo, n.hi), n.hi, if alone then Some(w) else n.succ)
  {
    hide Clean, Inserted;
    CleanKeys(s, sh);
    CleanKeys(s', sh');
    CleanPlace(s, sh, w);
    CleanPlace(s', sh', w);
    CleanPlace(s', sh', j);
  }

  lemma OtherPlaces(s: Net, s': Net, sh: Shape, sh': Shape, w: Id, j: Id, b: Id)
    requires Clean(s, sh) && Clean(s', sh') && IsInsertion(sh, sh', w, j) && !Member(sh, j)
    requires b in s.nodes && b in s'.nodes && b != w
    ensures var m := s.nodes[b];
            Placed(s'.nodes[b], if m.pred == Some(w) then Some(j) else m.pred, m.lo, m.hi, m.succ)
  {
    hide Clean, Inserted;
    CleanKeys(s, sh);
    CleanKeys(s', sh');
    CleanPlace(s, sh, w);
    CleanPlace(s, sh, b);
    CleanPlace(s', sh', b);
  }

  /** A drained join: one node that had a largest range kept the lower half of it, the joiner got the upper
      half and its place behind that node, and everybody else kept range and neighbours, but for the new
      predecessor of the old successor. */
  lemma JoinOutcome(id: Id, es: seq<Event>, es': seq<Event>) returns (w: Id)
    requires id != 0 && GuardedRun(Initial(id), es) && Drained(After(Initial(id), es))
    requires var s := After(Initial(id), es); JoinRound(s, es') && Quiescent(After(s, es'))
    ensures var s, j := After(Initial(id), es), es'[0].j;
            var s' := After(s, es');
            && w in s.nodes && j !in s.nodes && s'.nodes.Keys == s.nodes.Keys + {j}
            && var n, alone := s.nodes[w], s.nodes[w].succ == None;
               && n.lo < n.hi && (forall b :: b in s.nodes ==> s.nodes[b].hi - s.nodes[b].lo <= n.hi - n.lo)
               && Placed(s'.nodes[w], if alone then Some(j) else n.pred, n.lo, (n.hi - n.lo) / 2 + n.lo, Some(j))
               && Placed(s'.nodes[j], Some(w), (n.hi - n.lo) / 2 + n.lo + 1, n.hi, if alone then Some(w) else n.succ)
    ensures var s, j := After(Initial(id), es), es'[0].j;
            forall b :: b in s.nodes && b != w ==>
              var m := s.nodes[b];
              Placed(After(s, es').nodes[b], if m.pred == Some(w) then Some(j) else m.pred, m.lo, m.hi, m.succ)
  {
    hide GuardedRun, Clean, Placed, Quiescent, After, Drained, Initial, IsRun, Busy, Enabled;
    var sh := RunClean(id, es);
    w := JoinedNodes(After(Initial(id), es), sh, es');
  }

  lemma JoinedNodes(s: Net, sh: Shape, es: seq<Event>) returns (w: Id)
    requires Clean(s, sh) && JoinRound(s, es) && Quiescent(After(s, es))
    ensures var s', j := After(s, es), es[0].j;
            && w in s.nodes && j !in s.nodes && s'.nodes.Keys == s.nodes.Keys + {j}
            && var n, alone := s.nodes[w], s.nodes[w].succ == None;
               && n.lo < n.hi && (forall b :: b in s.nodes ==> s.nodes[b].hi - s.nodes[b].lo <= n.hi - n.lo)
               && Placed(s'.nodes[w], if alone then Some(j) else n.pred, n.lo, (n.hi - n.lo) / 2 + n.lo, Some(j))
               && Placed(s'.nodes[j], Some(w), (n.hi - n.lo) / 2 + n.lo + 1, n.hi, if alone then Some(w) else n.succ)
    ensures forall b :: b in s.nodes && b != w ==>
              var m := s.nodes[b];
              Placed(After(s, es).nodes[b], if m.pred == Some(w) then Some(es[0].j) else m.pred, m.lo, m.hi, m.succ)
  {
    hide Clean, Placed, IsInsertion, Quiescent, RingOf, FirstMaximum, After, Do, Member, Mid, AfterMid;
    var s', j := After(s, es), es[0].j;
    var sh', i := JoinDrained(s, sh, es);
    w :| Winner(sh, Do(s, es[0]).nodes, i, w) && IsInsertion(sh, sh', w, j);
    InsertedPlaces(s, s', sh, sh', w, j);
    LargestNode(s, sh, w);
    Halves(s.nodes[w].lo, s.nodes[w].hi);
    forall b | b in s.nodes && b != w
      ensures var m := s.nodes[b];
              Placed(s'.nodes[b], if m.pred == Some(w) then Some(j) else m.pred, m.lo, m.hi, m.succ)
    {
      OtherPlaces(s, s', sh, sh', w, j, b);
    }
  }

  lemma Halves(lo: byte, hi: byte)
    requires lo < hi
    ensures Mid(lo, hi) == (hi - lo) / 2 + lo && AfterMid(lo, hi) == (hi - lo) / 2 + lo + 1
  {
    SplitIsLegalIff(lo, hi);
  }

  lemma LargestNode(s: Net, sh: Shape, w: Id)
    requires Clean(s, sh) && Largest(sh, w) && sh.lo[w] < sh.hi[w]
    ensures w in s.nodes && s.nodes[w].lo < s.nodes[w].hi
    ensures forall b :: b in s.nodes ==> s.nodes[b].hi - s.nodes[b].lo <= s.nodes[w].hi - s.nodes[w].lo
  {
    hide Clean;
    CleanKeys(s, sh);
    CleanPlace(s, sh, w);
    forall b | b in s.nodes ensures s.nodes[b].hi - s.nodes[b].lo <= s.nodes[w].hi - s.nodes[w].lo {
      assert Member(sh, b);
      CleanPlace(s, sh, b);
    }
  }

  // ---- a leave ----

  lemma OnlyOne(s: Net, sh: Shape, h: Id, b: Id)
    requires Clean(s, sh) && h in sh.nxt && sh.nxt[h] == h && b in sh.nxt
    ensures b == h
  {
    assert Member(sh, h) && Member(sh, b);
    AloneIff(sh, h);
    assert h in sh.order && b in sh.order;
    assert sh.order == [sh.order[0]];
  }

  lemma RemovedPlace(s: Net, s': Net, sh: Shape, sh': Shape, l: Id, b: Id)
    requires Clean(s, sh) && Clean(s', sh') && IsRemoval(sh, sh', l) && l in s.nodes && b in s.nodes && b != l
    ensures b in s'.nodes && l !in s'.nodes
    ensures var n, m := s.nodes[l], s.nodes[b];
            Placed(s'.nodes[b],
                   if n.succ == n.pred then None else if m.pred == Some(l) then n.pred else m.pred,
                   if n.lo == 0 && n.succ == Some(b) then 0 else m.lo,
                   if n.lo != 0 && n.pred == Some(b) then n.hi else m.hi,
                   if n.succ == n.pred then None else if m.succ == Some(l) then n.succ else m.succ)
  {
    hide Clean, Removed;
    CleanKeys(s, sh);
    CleanKeys(s', sh');
    CleanPlace(s, sh, l);
    CleanPlace(s, sh, b);
    CleanPlace(s', sh', b);
    if sh.nxt[l] == l {
      OnlyOne(s, sh, l, b);
    } else if sh.nxt[l] == sh.prv[l] {
      OnlyOne(s', sh', sh.nxt[l], b);
    }
  }

  /** A drained leave: the leaver is gone, its range is the lower or the upper end of its heir's, the successor
      if it started at 0 and the predecessor otherwise, its neighbours are linked to each other, and everybody
      else has range and neighbours as before. */
  lemma LeaveOutcome(id: Id, es: seq<Event>, es': seq<Event>)
    requires id != 0 && GuardedRun(Initial(id), es) && Drained(After(Initial(id), es))
    requires var s := After(Initial(id), es); LeaveRound(s, es') && !After(s, es').leaving
    ensures var s, l := After(Initial(id), es), es'[0].l;
            l in s.nodes && After(s, es').nodes.Keys == s.nodes.Keys - {l}
    ensures var s, l := After(Initial(id), es), es'[0].l;
            forall b :: b in s.nodes && b != l ==>
              var n, m := s.nodes[l], s.nodes[b];
              Placed(After(s, es').nodes[b],
                     if n.succ == n.pred then None else if m.pred == Some(l) then n.pred else m.pred,
                     if n.lo == 0 && n.succ == Some(b) then 0 else m.lo,
                     if n.lo != 0 && n.pred == Some(b) then n.hi else m.hi,
                     if n.succ == n.pred then None else if m.succ == Some(l) then n.succ else m.succ)
  {
    hide GuardedRun, Clean, Placed, IsRemoval, Quiescent, After, Do, Drained, Member;
    var s, l := After(Initial(id), es), es'[0].l;
    var s' := After(s, es');
    var sh := RunClean(id, es);
    var sh' := LeaveDrained(s, sh, es');
    RemovedKeys(s, s', sh, sh', l);
    forall b | b in s.nodes && b != l
      ensures var n, m := s.nodes[l], s.nodes[b];
              Placed(s'.nodes[b],
                     if n.succ == n.pred then None else if m.pred == Some(l) then n.pred else m.pred,
                     if n.lo == 0 && n.succ == Some(b) then 0 else m.lo,
                     if n.lo != 0 && n.pred == Some(b) then n.hi else m.hi,
                     if n.succ == n.pred then None else if m.succ == Some(l) then n.succ else m.succ)
    {
      RemovedPlace(s, s', sh, sh', l, b);
    }
  }

  lemma RemovedKeys(s: Net, s': Net, sh: Shape, sh': Shape, l: Id)
    requires Clean(s, sh) && Clean(s', sh') && IsRemoval(sh, sh', l)
    ensures l in s.nodes && s'.nodes.Keys == s.nodes.Keys - {l}
  {
    hide Clean, Removed;
    CleanKeys(s, sh);
    CleanKeys(s', sh');
    CleanPlace(s, sh, l);
  }
}
