/** What the invariant means to an observer of any reachable state: the ranges tile the hash space,
    every stored key is in its holder's range, the links are those of the ring, and the network is
    never stuck. */
module NetSafety {
  import opened Base
  import opened Hash
  import opened Ranges
  import opened StoreSpec
  import opened NodeSpec
  import opened Network
  import opened Ring
  import opened NetInv
  import opened NetData
  import opened NetLeave
  import opened NetTail
  import opened NetTheorems

  // ---- whose range is which ----

  ghost predicate Announced(s: Net, l: Id) {
    (exists x: Id :: NewRangeResponse in Down(s, x, l)) || (exists y: Id :: NewRangeResponse in Up(s, l, y))
  }

  datatype Interval = Interval(lo: int, hi: int)

  /** The range a node is responsible for: its own; for a joiner that of the NET_JOIN_RESPONSE it is
      about to read; none for a leaver whose range the heir has taken, or a joiner without an answer. */
  ghost function RangeOf(s: Net, b: Id): Option<Interval> {
    if b !in s.nodes then None
    else
      var n := s.nodes[b];
      if n.mode == LeaveWait && Announced(s, b) then None
      else if InRing(n) then Some(Interval(n.lo, n.hi))
      else
        var p := Pipe(s, b);
        if p != [] && Down(s, p[0], b) != [] && Down(s, p[0], b)[0].JoinResponse? then
          Some(Interval(Down(s, p[0], b)[0].lo, Down(s, p[0], b)[0].hi))
        else None
  }

  /** order lists the nodes with a range, each once; their ranges are non-empty, contiguous and
      cover 0..255. */
  ghost predicate Tiled(s: Net, order: seq<Id>) {
    && |order| > 0 && Distinct(order)
    && (forall b :: b in order <==> RangeOf(s, b).Some?)
    && (forall i :: 0 <= i < |order| ==>
          var r := RangeOf(s, order[i]).value; 0 <= r.lo <= r.hi <= LAST)
    && RangeOf(s, order[0]).value.lo == 0
    && RangeOf(s, order[|order| - 1]).value.hi == LAST
    && (forall i, k {:trigger order[i], order[k]} :: 0 <= i && k == i + 1 < |order| ==>
          RangeOf(s, order[i]).value.hi + 1 == RangeOf(s, order[k]).value.lo)
  }

  /** What tiling is for: every hash value lies in the range of exactly one node. */
  lemma TiledOwner(s: Net, order: seq<Id>, h: byte) returns (b: Id)
    requires Tiled(s, order)
    ensures RangeOf(s, b).Some? && InRange(h, RangeOf(s, b).value.lo, RangeOf(s, b).value.hi)
    ensures forall c :: RangeOf(s, c).Some? && InRange(h, RangeOf(s, c).value.lo, RangeOf(s, c).value.hi) ==> c == b
  {
    hide RangeOf;
    var lo: map<Id, int> := map c | c in order :: RangeOf(s, c).value.lo as int;
    var hi: map<Id, int> := map c | c in order :: RangeOf(s, c).value.hi as int;
    assert Tiles(order, lo, hi);
    var i := OwnerExists(order, lo, hi, h, |order| - 1);
    b := order[i];
    forall c | RangeOf(s, c).Some? && InRange(h, RangeOf(s, c).value.lo, RangeOf(s, c).value.hi) ensures c == b {
      var k :| 0 <= k < |order| && order[k] == c;
      OwnerUnique(order, lo, hi, h, i, k);
    }
  }

  /** The ranges are those of a ring shape. */
  ghost predicate RangesAre(s: Net, sh: Shape) {
    forall b {:trigger RangeOf(s, b)} :: RangeIs(s, sh, b)
  }

  ghost predicate RangeIs(s: Net, sh: Shape, b: Id) {
    RangeOf(s, b) == if Member(sh, b) && b in sh.lo && b in sh.hi then Some(Interval(sh.lo[b], sh.hi[b])) else None
  }

  lemma ShapeTiles(s: Net, sh: Shape)
    requires ShapeOk(sh) && RangesAre(s, sh)
    ensures Tiled(s, sh.order)
  {
    forall b ensures b in sh.order <==> RangeOf(s, b).Some? {
      assert Member(sh, b) ==> b in sh.order;
    }
    forall i | 0 <= i < |sh.order|
      ensures RangeOf(s, sh.order[i]) == Some(Interval(sh.lo[sh.order[i]], sh.hi[sh.order[i]])) {
      assert Member(sh, sh.order[i]);
    }
    forall i, k {:trigger sh.order[i], sh.order[k]} | 0 <= i && k == i + 1 < |sh.order|
      ensures RangeOf(s, sh.order[i]).value.hi + 1 == RangeOf(s, sh.order[k]).value.lo
    {
      assert sh.hi[sh.order[i]] + 1 == sh.lo[sh.order[k]];
    }
  }

  lemma NormalRanges(s: Net, sh: Shape, loc: map<Id, Loc>)
    requires Normal(s, sh, loc)
    ensures RangesAre(s, sh)
  {
    forall b ensures RangeIs(s, sh, b) {
      if Member(sh, b) {
        assert LocalOk(s, sh, b);
      } else if b in s.nodes {
        assert Outsider(s, sh, b);
        assert Fresh(s, b);
      }
    }
  }

  lemma OfferNotAnnounced(q: Net, s: Net, sh: Shape, l: Id, b: Id)
    requires LeaveSetting(q, sh, l) && Offered(q, s, sh, l)
    ensures !Announced(s, b)
  {
    forall x: Id ensures NewRangeResponse !in Down(s, x, b) && NewRangeResponse !in Up(s, b, x) {}
  }

  lemma OfferedRanges(q: Net, s: Net, sh: Shape, l: Id)
    requires LeaveSetting(q, sh, l) && Offered(q, s, sh, l)
    ensures RangesAre(s, sh)
  {
    forall b ensures RangeIs(s, sh, b) {
      if Member(sh, b) {
        assert CleanNode(q, sh, b);
        OfferNotAnnounced(q, s, sh, l, b);
      }
    }
  }

  lemma LeaverAnnounced(q: Net, s: Net, sh: Shape, sh': Shape, l: Id)
    requires AnsweredSetting(q, s, sh, sh', l)
    ensures l in s.nodes && s.nodes[l].mode == LeaveWait && Announced(s, l)
  {
    hide Clean, Linked;
    if sh.lo[l] != 0 {
      assert NewRangeResponse in Down(s, sh.prv[l], l);
    } else {
      assert NewRangeResponse in Up(s, l, sh.nxt[l]);
    }
  }

  lemma OnlyLeaverLost(q: Net, s: Net, sh: Shape, sh': Shape, l: Id, b: Id)
    requires AnsweredSetting(q, s, sh, sh', l) && !Member(sh', b) && b in s.nodes
    ensures b == l
  {
    hide Linked, Still;
    assert b in q.nodes;
  }

  lemma RemainingRange(q: Net, s: Net, sh: Shape, sh': Shape, l: Id, b: Id)
    requires AnsweredSetting(q, s, sh, sh', l) && Member(sh', b)
    ensures RangeIs(s, sh', b)
  {
    hide Answered, IsRemoval, Tiles, StoreOk, KeysWithin;
    TailData(q, s, sh, sh', l, b);
    TailLinks(q, s, sh, sh', l, b);
  }

  lemma AnsweredRanges(q: Net, s: Net, sh: Shape, sh': Shape, l: Id)
    requires AnsweredSetting(q, s, sh, sh', l)
    ensures RangesAre(s, sh')
  {
    forall b ensures RangeIs(s, sh', b) {
      if Member(sh', b) {
        RemainingRange(q, s, sh, sh', l, b);
      } else if b in s.nodes {
        LeaverAnnounced(q, s, sh, sh', l);
        OnlyLeaverLost(q, s, sh, sh', l, b);
      }
    }
  }

  lemma TailRanges(s: Net, sh: Shape, l: Id, p: Id, o: Id)
    requires Tail(s, sh, l, p, o)
    ensures RangesAre(s, sh)
  {
    forall b ensures RangeIs(s, sh, b) {
      if b in s.nodes {
        TailMember(s, sh, l, p, o, b);
        assert s.nodes[b].mode != LeaveWait && InRing(s.nodes[b]);
      }
    }
  }

  /** Range tiling in every reachable state. */
  lemma RangesTile(s: Net) returns (order: seq<Id>)
    requires Inv(s)
    ensures Tiled(s, order)
  {
    hide LocalOk, Answered, Tiles, Announced, RangesAre, TokensOn;
    var sh: Shape;
    if sh0, loc :| Normal(s, sh0, loc) {
      sh := sh0;
      NormalRanges(s, sh, loc);
    } else if q, sh0, l :| LeaveSetting(q, sh0, l) && Offered(q, s, sh0, l) {
      sh := sh0;
      OfferedRanges(q, s, sh, l);
    } else if q, sh0, sh', l :| AnsweredSetting(q, s, sh0, sh', l) {
      sh := sh';
      AnsweredRanges(q, s, sh0, sh, l);
    } else {
      var sh0, l, p, o :| Tail(s, sh0, l, p, o);
      sh := sh0;
      TailRanges(s, sh, l, p, o);
    }
    ShapeTiles(s, sh);
    order := sh.order;
  }

  /** Every stored key hashes into its holder's range, and a node outside the ring stores nothing. */
  ghost predicate KeysAtHome(s: Net) {
    forall b :: b in s.nodes ==> AtHome(s.nodes[b])
  }

  ghost predicate AtHome(n: Node) {
    if InRing(n) then StoreOk(n.store) && forall k :: k in n.store.vals ==> Owns(n, k)
    else n.store == EMPTY_STORE
  }

  lemma NormalAtHome(s: Net, sh: Shape, loc: map<Id, Loc>)
    requires Normal(s, sh, loc)
    ensures KeysAtHome(s)
  {
    forall b | b in s.nodes ensures AtHome(s.nodes[b]) {
      assert if Member(sh, b) then LocalOk(s, sh, b) else Outsider(s, sh, b) && Fresh(s, b);
    }
  }

  lemma OfferedAtHome(q: Net, s: Net, sh: Shape, l: Id)
    requires LeaveSetting(q, sh, l) && Offered(q, s, sh, l)
    ensures KeysAtHome(s)
  {
    forall b | b in s.nodes ensures AtHome(s.nodes[b]) {
      assert Member(sh, b) && CleanNode(q, sh, b);
    }
  }

  lemma AnsweredAtHome(q: Net, s: Net, sh: Shape, sh': Shape, l: Id)
    requires AnsweredSetting(q, s, sh, sh', l)
    ensures KeysAtHome(s)
  {
    hide Linked, Tiles, StoreOk, Distinct;
    forall b | b in s.nodes ensures AtHome(s.nodes[b]) {
      if Member(sh', b) {
        TailData(q, s, sh, sh', l, b);
        TailLinks(q, s, sh, sh', l, b);
      } else {
        OnlyLeaverLost(q, s, sh, sh', l, b);
        assert CleanNode(q, sh, l);
      }
    }
  }

  lemma TailAtHome(s: Net, sh: Shape, l: Id, p: Id, o: Id)
    requires Tail(s, sh, l, p, o)
    ensures KeysAtHome(s)
  {
    forall b | b in s.nodes ensures AtHome(s.nodes[b]) {
      TailMember(s, sh, l, p, o, b);
    }
  }

  lemma StoredAtHome(s: Net)
    requires Inv(s)
    ensures KeysAtHome(s)
  {
    hide Tiles, Tail, CleanNode, AnsweredSetting;
    if sh, loc :| Normal(s, sh, loc) {
      NormalAtHome(s, sh, loc);
    } else if q, sh, l :| LeaveSetting(q, sh, l) && Offered(q, s, sh, l) {
      OfferedAtHome(q, s, sh, l);
    } else if q, sh, sh', l :| AnsweredSetting(q, s, sh, sh', l) {
      AnsweredAtHome(q, s, sh, sh', l);
    } else {
      var sh, l, p, o :| Tail(s, sh, l, p, o);
      TailAtHome(s, sh, l, p, o);
    }
  }

  /** Safety of whole runs in an observer's terms: whatever joins, leaves and client requests were
      interleaved, the ranges tile the hash space and every key is at home. */
  lemma ReachableTiled(id: Id, es: seq<Event>) returns (order: seq<Id>)
    requires id != 0 && GuardedRun(Initial(id), es)
    ensures Tiled(After(Initial(id), es), order) && KeysAtHome(After(Initial(id), es))
    ensures forall b, k {:trigger k in After(Initial(id), es).nodes[b].store.vals} ::
              b in After(Initial(id), es).nodes && k in After(Initial(id), es).nodes[b].store.vals ==>
                var n := After(Initial(id), es).nodes[b];
                n.lo <= HashOf(k) <= n.hi && k in n.store.keys
  {
    ReachableSafe(id, es);
    order := RangesTile(After(Initial(id), es));
    StoredAtHome(After(Initial(id), es));
  }

  /** No data loss, once a run has drained: a key that was inserted and never targeted by a remove is stored at
      exactly one node, the one in whose range it hashes. */
  lemma NothingLost(id: Id, es: seq<Event>, i: nat, k: Ssn) returns (b: Id)
    requires id != 0 && GuardedRun(Initial(id), es) && NoRemove(es, k) && Quiescent(After(Initial(id), es))
    requires i < |es| && es[i].ClientSend? && es[i].m.Insert? && es[i].m.k == k
    ensures var s := After(Initial(id), es);
            && b in s.nodes && k in s.nodes[b].store.vals && s.nodes[b].lo <= HashOf(k) <= s.nodes[b].hi
            && forall c :: c in s.nodes && k in s.nodes[c].store.vals ==> c == b
  {
    hide GuardedRun, Inv, Tiled, KeysAtHome, HashOf;
    var s := After(Initial(id), es);
    NoDataLoss(id, es, i, k);
    b := QuietPresent(s, k);
    var order := ReachableTiled(id, es);
    var o := TiledOwner(s, order, HashOf(k));
    forall c | c in s.nodes && k in s.nodes[c].store.vals ensures c == o {
      assert RangeOf(s, c) == Some(Interval(s.nodes[c].lo, s.nodes[c].hi));
    }
  }

  lemma QuietPresent(s: Net, k: Ssn) returns (b: Id)
    requires Quiescent(s) && Present(s, k)
    ensures b in s.nodes && k in s.nodes[b].store.vals
  {
    PresentIff(s, k);
    b :| b in s.nodes && k in s.nodes[b].store.vals;
  }

  // ---- links ----

  /** Sockets and addresses agree with the ring given by order. */
  ghost predicate LinksFollow(s: Net, order: seq<Id>) {
    forall i, k {:trigger order[i], order[k]} :: 0 <= i < |order| && k == Succ(i, |order|) ==>
      && order[i] in s.nodes && order[k] in s.nodes
      && var n, m := s.nodes[order[i]], s.nodes[order[k]];
         if |order| == 1 then n.succ.None? && n.pred.None? && n.lo == 0 && n.hi == LAST
         else
           && n.succ == Some(order[k]) && n.succAddr == order[k] && m.pred == Some(order[i])
           && m.lo == (if n.hi == LAST then 0 else n.hi + 1)
  }

  lemma CleanLinks(s: Net, sh: Shape)
    requires Clean(s, sh)
    ensures LinksFollow(s, sh.order)
  {
    forall i, k {:trigger sh.order[i], sh.order[k]} | 0 <= i < |sh.order| && k == Succ(i, |sh.order|)
      ensures sh.order[i] in s.nodes && sh.order[k] in s.nodes
      ensures var n, m := s.nodes[sh.order[i]], s.nodes[sh.order[k]];
              if |sh.order| == 1 then n.succ.None? && n.pred.None? && n.lo == 0 && n.hi == LAST
              else
                && n.succ == Some(sh.order[k]) && n.succAddr == sh.order[k] && m.pred == Some(sh.order[i])
                && m.lo == (if n.hi == LAST then 0 else n.hi + 1)
    {
      assert sh.nxt[sh.order[i]] == sh.order[k];
      assert Member(sh, sh.order[i]) && Member(sh, sh.order[k]);
      assert CleanNode(s, sh, sh.order[i]) && CleanNode(s, sh, sh.order[k]);
      AloneIff(sh, sh.order[i]);
      AloneIff(sh, sh.order[k]);
      NeighbourRanges(sh, sh.order[i]);
    }
  }

  /** Ring link consistency: whenever a run has drained, successor and predecessor sockets are inverse
      to each other and form one cycle through all nodes, in range order, and every stored successor
      address is the listening address of the owner of the next range. */
  lemma DrainedLinks(id: Id, es: seq<Event>) returns (order: seq<Id>)
    requires id != 0 && GuardedRun(Initial(id), es)
    requires var s := After(Initial(id), es); Quiescent(s) && !s.leaving
    ensures var s := After(Initial(id), es);
            Tiled(s, order) && LinksFollow(s, order) && (forall b :: b in order <==> b in s.nodes)
  {
    hide GuardedRun, Tiles, NodeOk, Linked, Streams, Handle;
    var s := After(Initial(id), es);
    ReachableSafe(id, es);
    var sh, loc :| Normal(s, sh, loc);
    QuietIsClean(s, sh, loc);
    NormalRanges(s, sh, loc);
    ShapeTiles(s, sh);
    CleanLinks(s, sh);
    order := sh.order;
    forall b ensures b in order <==> b in s.nodes {
      assert Member(sh, b) ==> b in sh.order;
    }
  }

  // ---- never stuck ----

  /** An event that makes progress: a message is read, a connection accepted, or a drained leave ends. */
  ghost predicate Progress(e: Event) {
    Delivers(e) || e.Accept? || e.LeaveDone?
  }

  ghost predicate CanProgress(s: Net) {
    exists e :: Progress(e) && Enabled(s, e)
  }

  /** A joiner that was answered can accept the connection, or read the answer. */
  lemma JoinerProgress(s: Net, sh: Shape, loc: map<Id, Loc>, b: Id)
    requires Normal(s, sh, loc) && Member(sh, b) && b in s.nodes && !InRing(s.nodes[b])
    ensures CanProgress(s)
  {
    hide Tiles, PipeOk, StoreOk, KeysWithin, Tokens;
    assert LocalOk(s, sh, b);
    if s.nodes[b].mode == JoinWait {
      assert Enabled(s, RecvPred(b));
    } else {
      assert Enabled(s, Accept(b));
    }
  }

  /** A member with something to read, or blocked in an accept, or whose ring predecessor is. */
  lemma MemberProgress(s: Net, sh: Shape, loc: map<Id, Loc>, b: Id)
    requires Normal(s, sh, loc) && Member(sh, b) && b in s.nodes
    requires s.nodes[b].mode != Running
    ensures CanProgress(s)
  {
    hide Tiles, StoreOk, KeysWithin, Tokens, StreamOk;
    assert LocalOk(s, sh, b);
    if !InRing(s.nodes[b]) {
      JoinerProgress(s, sh, loc, b);
    } else if Backlog(s, b) != [] {
      assert Enabled(s, Accept(b));
    } else {
      var a := sh.prv[b];
      assert sh.nxt[a] == b;
      assert Member(sh, a) && LocalOk(s, sh, a);
      assert Pipe(s, b) == [] && LinkFrom(s, a, b) == None;
      JoinerProgress(s, sh, loc, a);
    }
  }

  lemma NormalProgress(s: Net, sh: Shape, loc: map<Id, Loc>)
    requires Normal(s, sh, loc) && !CanProgress(s)
    ensures forall b :: b in s.nodes ==> s.nodes[b].mode == Running || Outsider(s, sh, b)
    ensures s.udp == multiset{} && forall x: Id, y: Id {:trigger Down(s, x, y)} :: Down(s, x, y) == []
  {
    forall b | b in s.nodes ensures s.nodes[b].mode == Running || Outsider(s, sh, b) {
      if Member(sh, b) && s.nodes[b].mode != Running {
        MemberProgress(s, sh, loc, b);
      }
    }
    if s.udp != multiset{} {
      var p :| p in s.udp;
      assert Enabled(s, RecvUdp(p));
    }
    forall x: Id, y: Id ensures Down(s, x, y) == [] {
      if Down(s, x, y) != [] {
        DownProgress(s, sh, loc, x, y);
      }
    }
  }

  /** Data behind a stream that is not at its reader's front: the reader first gets a NET_CLOSE_CONNECTION. */
  lemma DownProgress(s: Net, sh: Shape, loc: map<Id, Loc>, x: Id, y: Id)
    requires Normal(s, sh, loc) && Down(s, x, y) != []
    ensures CanProgress(s)
  {
    assert Member(sh, y) && LocalOk(s, sh, y) && x in Pipe(s, y);
    if s.nodes[y].mode != Running {
      MemberProgress(s, sh, loc, y);
    } else {
      var p := Pipe(s, y);
      assert p[0] == s.nodes[y].pred.value;
      var from := LinkFrom(s, sh.prv[y], y);
      assert StreamOk(Rest(Down(s, p[0], y), false && 0 == 0), from.Some? && 0 == |p| - 1);
      assert |p| == 1 ==> x == p[0];
      assert Enabled(s, RecvPred(y));
    }
  }

  lemma TailProgress(s: Net, sh: Shape, l: Id, p: Id, o: Id)
    requires Tail(s, sh, l, p, o)
    ensures CanProgress(s)
  {
    hide Linked, Tiles, InSide, DataOk;
    TailMember(s, sh, l, p, o, p);
    TailMember(s, sh, l, p, o, o);
    if !Relinked(s, l, p) && s.nodes[p].mode == Running {
      assert Up(s, p, l) != [];
      assert Enabled(s, RecvSucc(p));
    } else if !Closed(s, l, o) && s.nodes[o].mode == Running {
      assert Down(s, l, o) != [];
      assert Enabled(s, RecvPred(o));
    } else if s.nodes[o].mode == AwaitPred && Backlog(s, o) != [] {
      assert Enabled(s, Accept(o));
    } else {
      TailQuiet(s, sh, l, p, o);
      assert Enabled(s, LeaveDone);
    }
  }

  lemma TailQuiet(s: Net, sh: Shape, l: Id, p: Id, o: Id)
    requires Tail(s, sh, l, p, o)
    requires p in s.nodes && o in s.nodes
    requires Relinked(s, l, p) || s.nodes[p].mode != Running
    requires Closed(s, l, o) || s.nodes[o].mode != Running
    requires s.nodes[o].mode != AwaitPred || Backlog(s, o) == []
    ensures Quiescent(s)
  {
    TailMember(s, sh, l, p, o, p);
    TailMember(s, sh, l, p, o, o);
    assert Relinked(s, l, p) && Closed(s, l, o);
    forall b | b in s.nodes ensures s.nodes[b].mode == Running && Backlog(s, b) == [] {
      TailMember(s, sh, l, p, o, b);
    }
    forall x: Id, y: Id ensures Down(s, x, y) == [] && Up(s, x, y) == [] {}
  }

  /** No deadlock: in every reachable state some message can be read or some accept returns, until
      everything has drained except joiners whose NET_JOIN has not been answered and is gone. */
  lemma NeverStuck(s: Net)
    requires Inv(s) && !CanProgress(s)
    ensures !s.leaving && s.udp == multiset{}
    ensures forall x: Id, y: Id {:trigger Down(s, x, y)} :: Down(s, x, y) == []
    ensures forall x: Id, y: Id {:trigger Up(s, x, y)} :: Up(s, x, y) == []
    ensures forall b :: b in s.nodes && InRing(s.nodes[b]) ==> s.nodes[b].mode == Running
  {
    hide Tiles, Quiescent, PipeOk;
    if sh, loc :| Normal(s, sh, loc) {
      NormalProgress(s, sh, loc);
    } else if q, sh, l :| LeaveSetting(q, sh, l) && Offered(q, s, sh, l) {
      OfferedProgress(q, s, sh, l);
    } else if q, sh, sh', l :| AnsweredSetting(q, s, sh, sh', l) {
      AnsweredProgress(q, s, sh, sh', l);
    } else {
      var sh, l, p, o :| Tail(s, sh, l, p, o);
      TailProgress(s, sh, l, p, o);
    }
  }

  lemma AnsweredProgress(q: Net, s: Net, sh: Shape, sh': Shape, l: Id)
    requires AnsweredSetting(q, s, sh, sh', l)
    ensures CanProgress(s)
  {
    FarewellEffect(q, s, sh, sh', l);
    assert Progress(LeaverReads(sh, l));
  }

  lemma OfferedProgress(q: Net, s: Net, sh: Shape, l: Id)
    requires LeaveSetting(q, sh, l) && Offered(q, s, sh, l)
    ensures CanProgress(s)
  {
    var sh' := RemovedShape(q, sh, l);
    if sh.lo[l] == 0 {
      AnswerDown(q, s, sh, sh', l);
    } else {
      AnswerUp(q, s, sh, sh', l);
    }
    assert Progress(HeirReads(sh, l));
  }
}
