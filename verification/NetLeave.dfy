/** A leave: it starts in a clean ring, passes through the offer of the range, the heir's answer and
    the farewell, and drains into a clean ring without the leaver. */
module NetLeave {
  import opened Base
  import opened Hash
  import opened Ranges
  import opened StoreSpec
  import opened NodeSpec
  import opened Network
  import opened NetViews
  import opened Ring
  import opened NetInv

  ghost predicate Clean(s: Net, sh: Shape) {
    && ShapeOk(sh) && s.nodes.Keys == sh.nxt.Keys && 0 !in s.nodes && !s.leaving && Still(s)
    && (forall b {:trigger Member(sh, b)} :: Member(sh, b) ==> CleanNode(s, sh, b))
  }

  /** Nothing is in flight. */
  ghost predicate Still(s: Net) {
    && s.udp == multiset{}
    && (forall x: Id, y: Id {:trigger Down(s, x, y)} :: Down(s, x, y) == [])
    && (forall x: Id, y: Id {:trigger Up(s, x, y)} :: Up(s, x, y) == [])
  }

  /** The node's range and table. */
  ghost predicate DataOk(n: Node, lo: int, hi: int) {
    n.lo == lo && n.hi == hi && StoreOk(n.store) && KeysWithin(n.store, lo, hi)
  }

  /** Links and addresses are those of the ring, the node is in its main loop. */
  ghost predicate CleanNode(s: Net, sh: Shape, b: Id)
    requires b in sh.nxt && b in sh.prv && b in sh.lo && b in sh.hi
  {
    && b in s.nodes
    && var n := s.nodes[b];
       && n.mode == Running && Backlog(s, b) == [] && DataOk(n, sh.lo[b], sh.hi[b])
       && (if sh.nxt[b] == b then n.pred.None? && n.succ.None?
           else n.succ == Some(sh.nxt[b]) && n.succAddr == sh.nxt[b] && n.pred == Some(sh.prv[b]))
  }

  // ---- a quiet network is a clean ring, and the other way round ----

  lemma QuietMember(s: Net, sh: Shape, loc: map<Id, Loc>, b: Id)
    requires Normal(s, sh, loc) && Quiescent(s) && Member(sh, b)
    ensures CleanNode(s, sh, b)
  {
    var a := sh.prv[b];
    assert sh.nxt[a] == b;
    assert Member(sh, a) && LocalOk(s, sh, a) && LocalOk(s, sh, b);
    assert a in s.nodes && s.nodes[a].mode == Running && s.nodes[b].mode == Running;
    if sh.nxt[b] != b {
      assert a != b;
      assert LinkFrom(s, a, b) == Some(a);
      assert Pipe(s, b) == [s.nodes[b].pred.value];
    }
  }

  /** Links once everything has drained: successor and predecessor sockets are inverse to each
      other and form one cycle, and every stored successor address is that of the next range's owner. */
  lemma QuietIsClean(s: Net, sh: Shape, loc: map<Id, Loc>)
    requires Normal(s, sh, loc) && Quiescent(s)
    ensures Clean(s, sh)
  {
    forall b {:trigger Member(sh, b)} | Member(sh, b) ensures CleanNode(s, sh, b) {
      QuietMember(s, sh, loc, b);
    }
    forall b ensures b in s.nodes <==> b in sh.nxt {
      assert !Outsider(s, sh, b);
      assert Member(sh, b) ==> LocalOk(s, sh, b);
    }
  }

  /** The ring sh is in order; the nodes of `extra` wait outside for an answer to their NET_JOIN. */
  ghost predicate InOrder(s: Net, sh: Shape, extra: set<Id>) {
    && ShapeOk(sh) && s.nodes.Keys == sh.nxt.Keys + extra && 0 !in s.nodes && !s.leaving
    && (forall b {:trigger Member(sh, b)} :: Member(sh, b) ==> CleanNode(s, sh, b))
    && (forall j :: j in extra ==> !Member(sh, j) && j in s.nodes && Fresh(s, j))
  }

  lemma StillMember(s: Net, sh: Shape, extra: set<Id>, b: Id)
    requires InOrder(s, sh, extra) && Still(s) && Member(sh, b)
    ensures LocalOk(s, sh, b)
  {
    var a := sh.prv[b];
    assert CleanNode(s, sh, b);
    assert Member(sh, a) && sh.nxt[a] == b && CleanNode(s, sh, a);
    if sh.nxt[b] != b {
      assert a != b;
      assert Pipe(s, b) == [a];
      assert LinkFrom(s, a, b) == Some(a);
    } else {
      assert sh.prv[sh.nxt[b]] == b;
    }
  }

  lemma StillIsNormal(s: Net, sh: Shape, extra: set<Id>)
    requires InOrder(s, sh, extra) && Still(s)
    ensures Normal(s, sh, map[])
  {
    forall b {:trigger Member(sh, b)} | Member(sh, b) ensures LocalOk(s, sh, b) {
      StillMember(s, sh, extra, b);
    }
    forall b: Id, x: Id {:trigger Member(sh, b), x in Pipe(s, b)} | Member(sh, b) && b in s.nodes && x in Pipe(s, b)
      ensures x in s.nodes && InRing(s.nodes[x])
    {
      assert CleanNode(s, sh, b);
      assert x == sh.prv[b];
      assert Member(sh, x) && CleanNode(s, sh, x);
    }
    forall x: Id, y: Id {:trigger Down(s, x, y)} ensures TokensOn(Down(s, x, y), OnLink(x, y), map[]) {}
  }

  lemma CleanIsNormal(s: Net, sh: Shape)
    requires Clean(s, sh)
    ensures Normal(s, sh, map[])
  {
    assert InOrder(s, sh, {});
    StillIsNormal(s, sh, {});
  }

  // ---- the offer ----

  /** Who is who when l leaves the ring sh: predecessor, successor, heir. */
  ghost predicate LeaveSetting(q: Net, sh: Shape, l: Id) {
    Clean(q, sh) && Member(sh, l) && sh.nxt[l] != l
  }

  ghost predicate Offered(q: Net, s: Net, sh: Shape, l: Id)
    requires l in sh.nxt && l in sh.prv && l in q.nodes
  {
    var n := q.nodes[l];
    && s.nodes == q.nodes[l := n.(mode := LeaveWait)] && s.backlog == q.backlog && s.udp == multiset{} && s.leaving
    && (forall x: Id, y: Id {:trigger Down(s, x, y)} ::
          Down(s, x, y) == if n.lo == 0 && (x, y) == (l, sh.nxt[l]) then [NewRange(n.lo, n.hi)] else [])
    && (forall x: Id, y: Id {:trigger Up(s, x, y)} ::
          Up(s, x, y) == if n.lo != 0 && (x, y) == (sh.prv[l], l) then [NewRange(n.lo, n.hi)] else [])
  }

  lemma OfferEffect(q: Net, sh: Shape, l: Id)
    requires Clean(q, sh) && Enabled(q, LeaveStart(l))
    ensures LeaveSetting(q, sh, l) && Offered(q, Do(q, LeaveStart(l)), sh, l)
  {
    assert Member(sh, l) && CleanNode(q, sh, l);
    var s := Do(q, LeaveStart(l));
    OneMessageDown(q, l, sh.nxt[l], NewRange(q.nodes[l].lo, q.nodes[l].hi));
    OneMessageUp(q, sh.prv[l], l, NewRange(q.nodes[l].lo, q.nodes[l].hi));
    if q.nodes[l].lo == 0 {
      SameStreams(PushDown(q, l, sh.nxt[l], [NewRange(q.nodes[l].lo, q.nodes[l].hi)]), s);
    } else {
      SameStreams(PushUp(q, sh.prv[l], l, [NewRange(q.nodes[l].lo, q.nodes[l].hi)]), s);
    }
  }

  lemma SameStreams(s: Net, s': Net)
    requires s'.down == s.down && s'.up == s.up
    ensures forall x: Id, y: Id {:trigger Down(s', x, y)} :: Down(s', x, y) == Down(s, x, y)
    ensures forall x: Id, y: Id {:trigger Up(s', x, y)} :: Up(s', x, y) == Up(s, x, y)
  {
  }

  lemma OneMessageDown(s: Net, a: Id, b: Id, m: Msg)
    requires Still(s)
    ensures var s' := PushDown(s, a, b, [m]);
            && (forall x: Id, y: Id {:trigger Down(s', x, y)} :: Down(s', x, y) == if (x, y) == (a, b) then [m] else [])
            && (forall x: Id, y: Id {:trigger Up(s', x, y)} :: Up(s', x, y) == [])
  {
    var s' := PushDown(s, a, b, [m]);
    forall x: Id, y: Id {:trigger Down(s', x, y)} ensures Down(s', x, y) == if (x, y) == (a, b) then [m] else [] {
      assert Down(s, x, y) == [];
    }
    forall x: Id, y: Id {:trigger Up(s', x, y)} ensures Up(s', x, y) == [] {
      assert Up(s, x, y) == [];
    }
  }

  lemma OneMessageUp(s: Net, a: Id, b: Id, m: Msg)
    requires Still(s)
    ensures var s' := PushUp(s, a, b, [m]);
            && (forall x: Id, y: Id {:trigger Up(s', x, y)} :: Up(s', x, y) == if (x, y) == (a, b) then [m] else [])
            && (forall x: Id, y: Id {:trigger Down(s', x, y)} :: Down(s', x, y) == [])
  {
    var s' := PushUp(s, a, b, [m]);
    forall x: Id, y: Id {:trigger Up(s', x, y)} ensures Up(s', x, y) == if (x, y) == (a, b) then [m] else [] {
      assert Up(s, x, y) == [];
    }
    forall x: Id, y: Id {:trigger Down(s', x, y)} ensures Down(s', x, y) == [] {
      assert Down(s, x, y) == [];
    }
  }

  /** The only event that can happen next: the heir reads the offer. */
  function HeirReads(sh: Shape, l: Id): Event
    requires l in sh.nxt && l in sh.prv && l in sh.lo
  {
    if sh.lo[l] == 0 then RecvPred(sh.nxt[l]) else RecvSucc(sh.prv[l])
  }

  lemma OnlyHeirReads(q: Net, s: Net, sh: Shape, l: Id, e: Event)
    requires LeaveSetting(q, sh, l) && Offered(q, s, sh, l) && Enabled(s, e)
    ensures e == HeirReads(sh, l)
  {
    assert CleanNode(q, sh, l);
    if e.RecvPred? || e.RecvSucc? || e.Accept? {
      assert e.b in q.nodes;
      assert Member(sh, e.b) && CleanNode(q, sh, e.b);
      assert Backlog(s, e.b) == Backlog(q, e.b);
    }
    assert s.nodes[l].mode != Running;
  }

  // ---- the answer ----

  ghost predicate Answered(q: Net, s: Net, sh: Shape, sh': Shape, l: Id)
    requires l in sh.nxt && l in sh.prv && l in sh.lo && l in q.nodes && Heir(sh, l) in q.nodes
    requires Heir(sh, l) in sh'.lo && Heir(sh, l) in sh'.hi
  {
    var h := Heir(sh, l);
    && (forall b :: b in s.nodes <==> b in q.nodes) && l in s.nodes && h in s.nodes
    && (forall b :: b in s.nodes && b != l && b != h ==> s.nodes[b] == q.nodes[b])
    && s.nodes[l] == q.nodes[l].(mode := LeaveWait)
    && InRange(sh'.lo[h], 0, LAST) && InRange(sh'.hi[h], 0, LAST)
    && s.nodes[h] == q.nodes[h].(lo := sh'.lo[h], hi := sh'.hi[h])
    && s.backlog == q.backlog && s.udp == multiset{} && s.leaving
    && (forall x: Id, y: Id {:trigger Down(s, x, y)} ::
          Down(s, x, y) == if sh.lo[l] != 0 && (x, y) == (sh.prv[l], l) then [NewRangeResponse] else [])
    && (forall x: Id, y: Id {:trigger Up(s, x, y)} ::
          Up(s, x, y) == if sh.lo[l] == 0 && (x, y) == (l, sh.nxt[l]) then [NewRangeResponse] else [])
  }

  /** The heir's range before and after, as update_range sees it. */
  lemma HeirRange(sh: Shape, sh': Shape, l: Id)
    requires ShapeOk(sh) && ShapeOk(sh') && IsRemoval(sh, sh', l) && sh.nxt[l] != l
    ensures var h := Heir(sh, l);
            && Member(sh, h) && Member(sh', h) && h != l
            && 0 <= sh.lo[h] <= sh.hi[h] <= LAST && 0 <= sh.lo[l] <= sh.hi[l] <= LAST
            && UpdateRange(sh.lo[h], sh.hi[h], sh.lo[l], sh.hi[l])
               == (sh'.lo[h], sh'.hi[h], if sh.lo[l] == 0 then ToPredecessor else ToSuccessor)
            && sh'.lo[h] <= sh.lo[h] && sh.hi[h] <= sh'.hi[h]
            && sh'.lo[h] <= sh.lo[l] && sh.hi[l] <= sh'.hi[h]
  {
    var h := Heir(sh, l);
    assert Member(sh, l);
    assert Member(sh, h);
    assert sh.prv[l] != l by { assert sh.nxt[sh.prv[l]] == l; }
    assert sh.lo[l] == 0 ==> h == sh.nxt[l];
    var i := IndexOf(sh, l);
    var k := IndexOf(sh, h);
    NeighbourRanges(sh, l);
    NeighbourRanges(sh, h);
    assert sh.lo[sh.order[i]] <= sh.hi[sh.order[i]] && sh.lo[sh.order[k]] <= sh.hi[sh.order[k]];
    if sh.lo[l] != 0 {
      assert sh.nxt[h] == l;
    } else {
      LastNotZero(sh, l);
    }
  }

  /** A range that starts at 0 does not end at 255 in a ring of several. */
  lemma LastNotZero(sh: Shape, l: Id)
    requires ShapeOk(sh) && Member(sh, l) && sh.nxt[l] != l && sh.lo[l] == 0
    ensures sh.hi[l] != LAST
  {
    AloneIff(sh, l);
  }

  /** The heir at work: what it becomes and what it says. */
  lemma HeirReacts(q: Net, s: Net, sh: Shape, sh': Shape, l: Id)
    requires LeaveSetting(q, sh, l) && ShapeOk(sh') && IsRemoval(sh, sh', l) && Offered(q, s, sh, l)
    ensures var h := Heir(sh, l); var n := q.nodes[l];
            && h in q.nodes && h in sh'.lo && h in sh'.hi && h != l
            && InRange(sh'.lo[h], 0, LAST) && InRange(sh'.hi[h], 0, LAST)
            && s.nodes[h] == q.nodes[h] && s.nodes[h].mode == Running
            && React(s, h, NewRange(n.lo, n.hi)) ==
               (q.nodes[h].(lo := sh'.lo[h], hi := sh'.hi[h]),
                if sh.lo[l] == 0 then SILENT.(back := [NewRangeResponse]) else SILENT.(after := [NewRangeResponse]))
            && (if sh.lo[l] == 0 then q.nodes[h].pred == Some(l) && h == sh.nxt[l]
                else q.nodes[h].succ == Some(l) && h == sh.prv[l])
  {
    hide Tiles, StoreOk, KeysWithin, IsRemoval, HandleJoin, Without, Distinct, HandleValue;
    var h := Heir(sh, l);
    HeirRange(sh, sh', l);
    assert CleanNode(q, sh, l) && CleanNode(q, sh, h);
    assert sh.nxt[sh.prv[l]] == l && sh.prv[sh.nxt[l]] == l;
    assert sh.nxt[h] != h by { assert Member(sh, h) && sh.prv[sh.nxt[h]] == h; }
  }

  lemma LeaverRange(q: Net, sh: Shape, l: Id)
    requires LeaveSetting(q, sh, l)
    ensures l in q.nodes && l in sh.nxt && l in sh.prv && l in sh.lo && Heir(sh, l) in q.nodes && Heir(sh, l) != l
    ensures q.nodes[l].lo == sh.lo[l] && q.nodes[l].hi == sh.hi[l]
  {
    hide Tiles;
    assert CleanNode(q, sh, l) && Member(sh, Heir(sh, l)) && sh.nxt[sh.prv[l]] == l;
  }

  lemma AnswerDown(q: Net, s: Net, sh: Shape, sh': Shape, l: Id)
    requires LeaveSetting(q, sh, l) && ShapeOk(sh') && IsRemoval(sh, sh', l) && Offered(q, s, sh, l) && sh.lo[l] == 0
    ensures Enabled(s, HeirReads(sh, l)) && !Faults(s, HeirReads(sh, l))
    ensures Heir(sh, l) in q.nodes && Heir(sh, l) in sh'.lo && Heir(sh, l) in sh'.hi
    ensures Answered(q, Do(s, HeirReads(sh, l)), sh, sh', l)
  {
    hide Do, Faults, React, Tiles, IsRemoval, DataOk, Clean;
    LeaverRange(q, sh, l);
    var h := sh.nxt[l];
    var m := NewRange(q.nodes[l].lo, q.nodes[l].hi);
    HeirReacts(q, s, sh, sh', l);
    assert Down(s, l, h) == [m];
    AnswersPred(s, h, l, q.nodes[h].(lo := sh'.lo[h], hi := sh'.hi[h]), NewRangeResponse);
    hide Enabled;
    var s' := Do(s, RecvPred(h));
    forall x: Id, y: Id {:trigger Down(s', x, y)} ensures Down(s', x, y) == [] {
      assert Down(s, x, y) == if (x, y) == (l, h) then [m] else [];
    }
    forall x: Id, y: Id {:trigger Up(s', x, y)}
      ensures Up(s', x, y) == if (x, y) == (l, h) then [NewRangeResponse] else []
    {
      assert Up(s, x, y) == [];
    }
  }

  lemma AnswerUp(q: Net, s: Net, sh: Shape, sh': Shape, l: Id)
    requires LeaveSetting(q, sh, l) && ShapeOk(sh') && IsRemoval(sh, sh', l) && Offered(q, s, sh, l) && sh.lo[l] != 0
    ensures Enabled(s, HeirReads(sh, l)) && !Faults(s, HeirReads(sh, l))
    ensures Heir(sh, l) in q.nodes && Heir(sh, l) in sh'.lo && Heir(sh, l) in sh'.hi
    ensures Answered(q, Do(s, HeirReads(sh, l)), sh, sh', l)
  {
    hide Do, Faults, React, Tiles, IsRemoval, DataOk, Clean;
    LeaverRange(q, sh, l);
    var h := sh.prv[l];
    var m := NewRange(q.nodes[l].lo, q.nodes[l].hi);
    HeirReacts(q, s, sh, sh', l);
    assert Up(s, h, l) == [m];
    AnswersSucc(s, h, l, q.nodes[h].(lo := sh'.lo[h], hi := sh'.hi[h]), NewRangeResponse);
    hide Enabled;
    var s' := Do(s, RecvSucc(h));
    forall x: Id, y: Id {:trigger Up(s', x, y)} ensures Up(s', x, y) == [] {
      assert Up(s, x, y) == if (x, y) == (h, l) then [m] else [];
    }
    forall x: Id, y: Id {:trigger Down(s', x, y)}
      ensures Down(s', x, y) == if (x, y) == (h, l) then [NewRangeResponse] else []
    {
      assert Down(s, x, y) == [];
    }
  }

  // ---- the farewell ----

  function LeaverReads(sh: Shape, l: Id): Event
    requires l in sh.lo
  {
    if sh.lo[l] == 0 then RecvSucc(l) else RecvPred(l)
  }

  lemma OnlyLeaverReads(q: Net, s: Net, sh: Shape, sh': Shape, l: Id, e: Event)
    requires LeaveSetting(q, sh, l) && ShapeOk(sh') && IsRemoval(sh, sh', l)
    requires Heir(sh, l) in q.nodes && Heir(sh, l) in sh'.lo && Heir(sh, l) in sh'.hi
    requires Answered(q, s, sh, sh', l) && Enabled(s, e)
    ensures e == LeaverReads(sh, l)
  {
    hide Tiles, IsRemoval, DataOk;
    assert CleanNode(q, sh, l);
    if e.RecvPred? || e.RecvSucc? || e.Accept? {
      assert e.b in q.nodes;
      assert Member(sh, e.b) && CleanNode(q, sh, e.b);
      assert Backlog(s, e.b) == Backlog(q, e.b);
    }
    assert s.nodes[l].mode != Running;
  }

  /** A stream that ends a connection: entries for a node that owns [lo, hi], then a last word. */
  ghost predicate Parting(ch: seq<Msg>, last: Msg, lo: int, hi: int) {
    && |ch| > 0 && ch[|ch| - 1] == last
    && (forall i :: 0 <= i < |ch| - 1 ==> ch[i].Insert? && InRange(HashOf(ch[i].k), lo, hi))
  }

  /** p has read NET_LEAVING; o has read NET_CLOSE_CONNECTION. */
  ghost predicate Relinked(s: Net, l: Id, p: Id)
    requires p in s.nodes
  {
    s.nodes[p].succ != Some(l)
  }

  ghost predicate Closed(s: Net, l: Id, o: Id)
    requires o in s.nodes
  {
    s.nodes[o].pred != Some(l)
  }

  /** How a member's predecessor side stands while o waits for p in l's place. */
  ghost predicate InSide(s: Net, sh: Shape, l: Id, p: Id, o: Id, b: Id)
    requires b in s.nodes && p in s.nodes && o in s.nodes && b in sh.prv
  {
    var n := s.nodes[b];
    var waiting := if Relinked(s, l, p) then [p] else [];
    if b != o then n.mode == Running && n.pred == Some(sh.prv[b]) && Backlog(s, b) == []
    else if p == o then n.mode == Running && (n.pred == Some(l) || n.pred == None) && Backlog(s, b) == []
    else
      || (n.mode == Running && n.pred == Some(l) && Backlog(s, b) == waiting)
      || (n.mode == AwaitPred && n.pred == None && Backlog(s, b) == waiting)
      || (n.mode == Running && n.pred == Some(p) && Backlog(s, b) == [] && Relinked(s, l, p))
  }

  ghost predicate OutSide(s: Net, sh: Shape, l: Id, p: Id, o: Id, b: Id)
    requires b in s.nodes && b in sh.nxt
  {
    var n := s.nodes[b];
    if b != p then n.succ == Some(sh.nxt[b]) && n.succAddr == sh.nxt[b]
    else if p == o then n.succ == Some(l) || n.succ == None
    else n.succ == Some(l) || (n.succ == Some(o) && n.succAddr == o)
  }

  /** The leaver l is gone; its ring neighbours p and o have yet to find each other. */
  ghost predicate Tail(s: Net, sh: Shape, l: Id, p: Id, o: Id) {
    && ShapeOk(sh) && s.nodes.Keys == sh.nxt.Keys && 0 !in s.nodes && s.leaving && s.udp == multiset{}
    && !Member(sh, l) && Member(sh, p) && sh.nxt[p] == o && Member(sh, o)
    && (forall b {:trigger Member(sh, b)} :: Member(sh, b) ==>
          DataOk(s.nodes[b], sh.lo[b], sh.hi[b]) && InSide(s, sh, l, p, o, b) && OutSide(s, sh, l, p, o, b))
    && (forall x: Id, y: Id {:trigger Down(s, x, y)} ::
          if (x, y) == (l, o) && !Closed(s, l, o) then Parting(Down(s, x, y), Close, sh.lo[o], sh.hi[o])
          else Down(s, x, y) == [])
    && (forall x: Id, y: Id {:trigger Up(s, x, y)} ::
          if (x, y) == (p, l) && !Relinked(s, l, p) then Parting(Up(s, x, y), Leaving(o), sh.lo[p], sh.hi[p])
          else Up(s, x, y) == [])
  }

  lemma EntriesPart(n: Node, last: Msg, lo: int, hi: int)
    requires KeysWithin(n.store, n.lo, n.hi) && lo <= n.lo && n.hi <= hi
    ensures Parting(Inserts(n.store.keys, n.store.vals) + [last], last, lo, hi)
  {
    var ins := Inserts(n.store.keys, n.store.vals);
    InsertsMembers(n.store.keys, n.store.vals);
    var ch := ins + [last];
    forall i | 0 <= i < |ch| - 1 ensures ch[i].Insert? && InRange(HashOf(ch[i].k), lo, hi) {
      assert ch[i] == ins[i] && ins[i] in ins;
    }
  }

  /** What l writes to its successor and to its predecessor on the way out. */
  function LastDown(n: Node): seq<Msg> {
    (if n.lo == 0 then Inserts(n.store.keys, n.store.vals) else []) + [Close]
  }

  function LastUp(n: Node): seq<Msg> {
    (if n.lo == 0 then [] else Inserts(n.store.keys, n.store.vals)) + [Leaving(n.succAddr)]
  }

  ghost predicate Departed(s: Net, s': Net, l: Id, p: Id, o: Id) {
    && l in s.nodes && s'.nodes == s.nodes - {l} && s'.udp == s.udp && s'.leaving == s.leaving
    && (forall a {:trigger Backlog(s', a)} :: a != l ==> Backlog(s', a) == Backlog(s, a))
    && (forall x: Id, y: Id {:trigger Down(s', x, y)} ::
          Down(s', x, y) == if (x, y) == (l, o) then LastDown(s.nodes[l]) else [])
    && (forall x: Id, y: Id {:trigger Up(s', x, y)} ::
          Up(s', x, y) == if (x, y) == (p, l) then LastUp(s.nodes[l]) else [])
  }

  lemma DepartViews(r: Net, s': Net, l: Id, p: Id, o: Id)
    requires l in r.nodes
    requires forall x: Id, y: Id {:trigger Down(r, x, y)} :: Down(r, x, y) == []
    requires forall x: Id, y: Id {:trigger Up(r, x, y)} :: Up(r, x, y) == []
    requires var s1 := PushDown(r, l, o, LastDown(r.nodes[l]));
             var s2 := PushUp(s1, p, l, LastUp(r.nodes[l]));
             s' == s2.(nodes := r.nodes - {l}, backlog := r.backlog - {l})
    ensures Departed(r, s', l, p, o)
  {
    var n := r.nodes[l];
    var s1 := PushDown(r, l, o, LastDown(n));
    hide LastDown, LastUp, PushDown, PushUp;
    PushDownViews(r, l, o, LastDown(n));
    PushUpViews(s1, p, l, LastUp(n));
    assert [] + LastDown(n) == LastDown(n) && [] + LastUp(n) == LastUp(n);
    forall x: Id, y: Id {:trigger Down(s', x, y)}
      ensures Down(s', x, y) == if (x, y) == (l, o) then LastDown(n) else [] {
      assert Down(r, x, y) == [];
    }
    forall x: Id, y: Id {:trigger Up(s', x, y)} ensures Up(s', x, y) == if (x, y) == (p, l) then LastUp(n) else [] {
      assert Up(r, x, y) == [];
    }
  }

  /** Depart, once the answer has been taken from its stream and nothing else is in flight. */
  lemma DepartEffect(r: Net, l: Id, p: Id, o: Id)
    requires l in r.nodes && r.nodes[l].succ == Some(o) && r.nodes[l].pred == Some(p)
    requires forall x: Id, y: Id {:trigger Down(r, x, y)} :: Down(r, x, y) == []
    requires forall x: Id, y: Id {:trigger Up(r, x, y)} :: Up(r, x, y) == []
    ensures Departed(r, Depart(r, l, NewRangeResponse), l, p, o)
  {
    var n := r.nodes[l];
    var s' := Depart(r, l, NewRangeResponse);
    var ins := Inserts(n.store.keys, n.store.vals);
    assert [] + ins == ins && [] + [Close] == [Close] && [] + [Leaving(n.succAddr)] == [Leaving(n.succAddr)];
    hide Inserts, Emit;
    var e := Emit(r, l, n, n, Farewell(n, NewRangeResponse));
    BothEmit(r, l, n, o, p, LastDown(n), LastUp(n));
    assert e == PushUp(PushDown(r, l, o, LastDown(n)), p, l, LastUp(n)).(nodes := r.nodes[l := n]);
    DepartViews(r, s', l, p, o);
  }

  /** The leaver has its answer in hand, and nothing else is in flight. */
  ghost predicate Taken(s: Net, r: Net, l: Id, e: Event)
    requires Enabled(s, e)
  {
    && r.nodes == s.nodes && r.backlog == s.backlog && r.udp == s.udp && r.leaving == s.leaving
    && l in r.nodes && Do(s, e) == Depart(r, l, NewRangeResponse)
    && (forall x: Id, y: Id {:trigger Down(r, x, y)} :: Down(r, x, y) == [])
    && (forall x: Id, y: Id {:trigger Up(r, x, y)} :: Up(r, x, y) == [])
  }

  lemma TakenUp(s: Net, l: Id, o: Id) returns (r: Net)
    requires l in s.nodes && s.nodes[l].mode == LeaveWait && s.nodes[l].lo == 0 && s.nodes[l].succ == Some(o)
    requires forall x: Id, y: Id {:trigger Down(s, x, y)} :: Down(s, x, y) == []
    requires forall x: Id, y: Id {:trigger Up(s, x, y)} ::
               Up(s, x, y) == if (x, y) == (l, o) then [NewRangeResponse] else []
    ensures Enabled(s, RecvSucc(l)) && !Faults(s, RecvSucc(l)) && Taken(s, r, l, RecvSucc(l))
  {
    assert Up(s, l, o) == [NewRangeResponse];
    r := PopUp(s, l, o);
    forall x: Id, y: Id {:trigger Down(r, x, y)} ensures Down(r, x, y) == [] {
      assert Down(s, x, y) == [];
    }
    forall x: Id, y: Id {:trigger Up(r, x, y)} ensures Up(r, x, y) == [] {
      assert Up(s, x, y) == if (x, y) == (l, o) then [NewRangeResponse] else [];
    }
  }

  lemma TakenDown(s: Net, p: Id, l: Id) returns (r: Net)
    requires l in s.nodes && s.nodes[l].mode == LeaveWait && s.nodes[l].lo != 0 && s.nodes[l].pred == Some(p)
    requires forall x: Id, y: Id {:trigger Up(s, x, y)} :: Up(s, x, y) == []
    requires forall x: Id, y: Id {:trigger Down(s, x, y)} ::
               Down(s, x, y) == if (x, y) == (p, l) then [NewRangeResponse] else []
    ensures Enabled(s, RecvPred(l)) && !Faults(s, RecvPred(l)) && Taken(s, r, l, RecvPred(l))
  {
    assert Down(s, p, l) == [NewRangeResponse];
    r := PopDown(s, p, l);
    forall x: Id, y: Id {:trigger Up(r, x, y)} ensures Up(r, x, y) == [] {
      assert Up(s, x, y) == [];
    }
    forall x: Id, y: Id {:trigger Down(r, x, y)} ensures Down(r, x, y) == [] {
      assert Down(s, x, y) == if (x, y) == (p, l) then [NewRangeResponse] else [];
    }
  }

  /** Where q and sh stand behind an answered offer. */
  ghost predicate AnsweredSetting(q: Net, s: Net, sh: Shape, sh': Shape, l: Id) {
    && LeaveSetting(q, sh, l) && ShapeOk(sh') && IsRemoval(sh, sh', l)
    && Heir(sh, l) in q.nodes && Heir(sh, l) in sh'.lo && Heir(sh, l) in sh'.hi && Answered(q, s, sh, sh', l)
  }

  lemma TakenDeparts(s: Net, r: Net, l: Id, p: Id, o: Id, e: Event)
    requires Enabled(s, e) && Taken(s, r, l, e) && s.nodes[l].succ == Some(o) && s.nodes[l].pred == Some(p)
    ensures Departed(s, Do(s, e), l, p, o)
  {
    hide Do, Enabled, Depart, LastDown, LastUp;
    DepartEffect(r, l, p, o);
    assert forall a :: Backlog(r, a) == Backlog(s, a);
  }

  lemma FarewellAt(s: Net, l: Id, p: Id, o: Id)
    requires l in s.nodes && s.nodes[l].mode == LeaveWait && s.nodes[l].succ == Some(o) && s.nodes[l].pred == Some(p)
    requires forall x: Id, y: Id {:trigger Up(s, x, y)} ::
               Up(s, x, y) == if s.nodes[l].lo == 0 && (x, y) == (l, o) then [NewRangeResponse] else []
    requires forall x: Id, y: Id {:trigger Down(s, x, y)} ::
               Down(s, x, y) == if s.nodes[l].lo != 0 && (x, y) == (p, l) then [NewRangeResponse] else []
    ensures var e := if s.nodes[l].lo == 0 then RecvSucc(l) else RecvPred(l);
            Enabled(s, e) && !Faults(s, e) && Departed(s, Do(s, e), l, p, o)
  {
    hide Taken, Departed, Do, Faults;
    var r;
    if s.nodes[l].lo == 0 {
      r := TakenUp(s, l, o);
      TakenDeparts(s, r, l, p, o, RecvSucc(l));
    } else {
      r := TakenDown(s, p, l);
      TakenDeparts(s, r, l, p, o, RecvPred(l));
    }
  }

  lemma FarewellEffect(q: Net, s: Net, sh: Shape, sh': Shape, l: Id)
    requires AnsweredSetting(q, s, sh, sh', l)
    ensures Enabled(s, LeaverReads(sh, l)) && !Faults(s, LeaverReads(sh, l))
    ensures Departed(s, Do(s, LeaverReads(sh, l)), l, sh.prv[l], sh.nxt[l])
  {
    assert CleanNode(q, sh, l);
    FarewellAt(s, l, sh.prv[l], sh.nxt[l]);
  }

  /** The ring without l, seen from another member. */
  lemma RemovalViews(sh: Shape, sh': Shape, l: Id, b: Id)
    requires Linked(sh) && IsRemoval(sh, sh', l) && sh.nxt[l] != l && Member(sh', b) && sh'.prv.Keys == sh'.nxt.Keys
    ensures Member(sh, b) && b != l && sh.prv[l] != l && sh.nxt[sh.prv[l]] == l
    ensures sh'.prv[b] == if b == sh.nxt[l] then sh.prv[l] else sh.prv[b]
    ensures sh'.nxt[b] == if b == sh.prv[l] then sh.nxt[l] else sh.nxt[b]
    ensures b != sh.prv[l] ==> sh.nxt[b] != l
    ensures b != sh.nxt[l] ==> sh.prv[b] != l
  {
    assert Member(sh, l) && Member(sh, b);
    assert sh.prv[sh.nxt[b]] == b && sh.nxt[sh.prv[b]] == b;
  }

  lemma RangesAfterRemoval(sh: Shape, sh': Shape, l: Id, b: Id)
    requires ShapeOk(sh) && ShapeOk(sh') && IsRemoval(sh, sh', l) && sh.nxt[l] != l && Member(sh', b)
    ensures b != l && Member(sh, b) && sh'.lo[b] <= sh.lo[b] && sh.hi[b] <= sh'.hi[b]
    ensures b != Heir(sh, l) ==> sh'.lo[b] == sh.lo[b] && sh'.hi[b] == sh.hi[b]
  {
    hide Tiles, Removed;
    HeirRange(sh, sh', l);
  }

  lemma TailData(q: Net, s: Net, sh: Shape, sh': Shape, l: Id, b: Id)
    requires AnsweredSetting(q, s, sh, sh', l) && Member(sh', b)
    ensures b in s.nodes && b != l && DataOk(s.nodes[b], sh'.lo[b], sh'.hi[b])
  {
    hide Tiles, StoreOk, Removed, UpdateRange, Still;
    RangesAfterRemoval(sh, sh', l, b);
    hide IsRemoval, Linked;
    assert CleanNode(q, sh, b);
  }

  lemma TailLinks(q: Net, s: Net, sh: Shape, sh': Shape, l: Id, b: Id)
    requires AnsweredSetting(q, s, sh, sh', l) && Member(sh', b) && b in s.nodes && b != l
    ensures s.nodes[b].mode == Running && Backlog(s, b) == []
    ensures s.nodes[b].pred == Some(if b == sh.nxt[l] then l else sh'.prv[b])
    ensures if b == sh.prv[l] then s.nodes[b].succ == Some(l)
            else s.nodes[b].succ == Some(sh'.nxt[b]) && s.nodes[b].succAddr == sh'.nxt[b]
  {
    hide IsRemoval, Removed, StoreOk;
    RemovalViews(sh, sh', l, b);
    assert CleanNode(q, sh, b);
    assert sh.nxt[b] != b by {
      if sh.nxt[b] == b { assert sh.prv[sh.nxt[b]] == b; AloneIff(sh, b); AloneIff(sh, l); }
    }
    assert Backlog(s, b) == Backlog(q, b);
    assert sh.prv[sh.nxt[l]] == l;
  }

  /** A member right after l left. */
  ghost predicate JustLeft(s: Net, sh: Shape, l: Id, p: Id, o: Id, b: Id)
    requires b in sh.nxt && b in sh.prv && b in sh.lo && b in sh.hi
  {
    && b in s.nodes && DataOk(s.nodes[b], sh.lo[b], sh.hi[b])
    && s.nodes[b].mode == Running && Backlog(s, b) == []
    && s.nodes[b].pred == Some(if b == o then l else sh.prv[b])
    && (if b == p then s.nodes[b].succ == Some(l)
        else s.nodes[b].succ == Some(sh.nxt[b]) && s.nodes[b].succAddr == sh.nxt[b])
  }

  lemma DepartMember(q: Net, s: Net, s': Net, sh: Shape, sh': Shape, l: Id, b: Id)
    requires AnsweredSetting(q, s, sh, sh', l) && Departed(s, s', l, sh.prv[l], sh.nxt[l]) && Member(sh', b)
    ensures JustLeft(s', sh', l, sh.prv[l], sh.nxt[l], b)
  {
    TailData(q, s, sh, sh', l, b);
    TailLinks(q, s, sh, sh', l, b);
    assert Backlog(s', b) == Backlog(s, b);
  }

  lemma PlacesAfterRemoval(sh: Shape, sh': Shape, l: Id)
    requires ShapeOk(sh) && IsRemoval(sh, sh', l) && sh.nxt[l] != l
    ensures Member(sh', sh.prv[l]) && Member(sh', sh.nxt[l]) && sh'.nxt[sh.prv[l]] == sh.nxt[l]
    ensures !Member(sh', l) && forall b :: b in sh'.nxt <==> b in sh.nxt && b != l
  {
    hide Tiles, Removed;
    assert Member(sh, l) && sh.nxt[sh.prv[l]] == l && sh.prv[sh.nxt[l]] == l;
  }

  lemma DepartPlaces(q: Net, s: Net, s': Net, sh: Shape, sh': Shape, l: Id)
    requires AnsweredSetting(q, s, sh, sh', l) && Departed(s, s', l, sh.prv[l], sh.nxt[l])
    ensures s'.nodes.Keys == sh'.nxt.Keys && 0 !in s'.nodes && !Member(sh', l)
    ensures Member(sh', sh.prv[l]) && Member(sh', sh.nxt[l]) && sh'.nxt[sh.prv[l]] == sh.nxt[l]
  {
    hide Still, UpdateRange, Heir, Handle, Backlog, Down, Up, CleanNode;
    PlacesAfterRemoval(sh, sh', l);
    hide ShapeOk, IsRemoval;
    forall b ensures b in s'.nodes <==> b in sh'.nxt {}
  }

  lemma DepartStreams(q: Net, s: Net, s': Net, sh: Shape, sh': Shape, l: Id)
    requires AnsweredSetting(q, s, sh, sh', l) && Member(sh', sh.nxt[l]) && Member(sh', sh.prv[l])
    ensures Parting(LastDown(s.nodes[l]), Close, sh'.lo[sh.nxt[l]], sh'.hi[sh.nxt[l]])
    ensures Parting(LastUp(s.nodes[l]), Leaving(sh.nxt[l]), sh'.lo[sh.prv[l]], sh'.hi[sh.prv[l]])
  {
    var n := s.nodes[l];
    assert CleanNode(q, sh, l);
    HeirRange(sh, sh', l);
    if sh.lo[l] == 0 {
      EntriesPart(n, Close, sh'.lo[sh.nxt[l]], sh'.hi[sh.nxt[l]]);
    } else {
      EntriesPart(n, Leaving(sh.nxt[l]), sh'.lo[sh.prv[l]], sh'.hi[sh.prv[l]]);
    }
  }

  lemma TailIntro(s: Net, sh: Shape, l: Id, p: Id, o: Id, down: seq<Msg>, up: seq<Msg>)
    requires ShapeOk(sh) && s.nodes.Keys == sh.nxt.Keys && 0 !in s.nodes && s.leaving && s.udp == multiset{}
    requires !Member(sh, l) && Member(sh, p) && sh.nxt[p] == o && Member(sh, o)
    requires forall b {:trigger Member(sh, b)} :: Member(sh, b) ==> JustLeft(s, sh, l, p, o, b)
    requires Parting(down, Close, sh.lo[o], sh.hi[o]) && Parting(up, Leaving(o), sh.lo[p], sh.hi[p])
    requires forall x: Id, y: Id {:trigger Down(s, x, y)} :: Down(s, x, y) == if (x, y) == (l, o) then down else []
    requires forall x: Id, y: Id {:trigger Up(s, x, y)} :: Up(s, x, y) == if (x, y) == (p, l) then up else []
    ensures Tail(s, sh, l, p, o)
  {
    assert JustLeft(s, sh, l, p, o, p) && JustLeft(s, sh, l, p, o, o);
  }

  lemma DepartTail(q: Net, s: Net, s': Net, sh: Shape, sh': Shape, l: Id)
    requires AnsweredSetting(q, s, sh, sh', l) && Departed(s, s', l, sh.prv[l], sh.nxt[l])
    ensures Tail(s', sh', l, sh.prv[l], sh.nxt[l])
  {
    DepartPlaces(q, s, s', sh, sh', l);
    DepartStreams(q, s, s', sh, sh', l);
    forall b {:trigger Member(sh', b)} | Member(sh', b) ensures JustLeft(s', sh', l, sh.prv[l], sh.nxt[l], b) {
      DepartMember(q, s, s', sh, sh', l, b);
    }
    TailIntro(s', sh', l, sh.prv[l], sh.nxt[l], LastDown(s.nodes[l]), LastUp(s.nodes[l]));
  }
}
