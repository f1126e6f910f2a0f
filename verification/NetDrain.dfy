/** A join ends: when it is answered and when it has drained, whatever the schedule. */
module NetDrain {
  import opened Base
  import opened StoreSpec
  import opened NodeSpec
  import opened Network
  import opened Ring
  import opened RingWalk
  import opened NetInv
  import opened NetJoin
  import opened NetLeave
  import opened NetTokens
  import opened NetSingle
  import opened NetRounds
  import opened NetRoundTrip
  import opened NetDrainJoin

  // ---- relinking ends in a quiet ring ----

  lemma QuietMode(s: Net, sh: Shape, b: Id)
    requires Settling(s, sh) && Member(sh, b) && b in s.nodes && sh.nxt[b] != b
    requires InRing(s.nodes[b]) && Backlog(s, b) == []
    requires forall a :: a in s.nodes ==> InRing(s.nodes[a])
    ensures s.nodes[b].mode == Running
  {
    hide Streams, Tokens, StoreOk, KeysWithin, StreamOk, Tiles;
    var a := sh.prv[b];
    assert Pipe(s, b) == if s.nodes[b].pred.Some? then [s.nodes[b].pred.value] else [];
    assert Member(sh, a) && sh.nxt[a] == b && a != b;
    assert LocalOk(s, sh, a) && LocalOk(s, sh, b);
  }

  lemma TwoMembers(sh: Shape, w: Id, j: Id, b: Id)
    requires ShapeOk(sh) && Member(sh, w) && Member(sh, j) && w != j && Member(sh, b)
    ensures sh.nxt[b] != b
  {
    AloneIff(sh, b);
    var i := IndexOf(sh, w);
    var k := IndexOf(sh, j);
  }

  /** Relinking is over exactly when the network is quiet. */
  lemma RelinkedIffQuiet(s: Net, sh: Shape, w: Id, j: Id, o: Id)
    requires Relinking(s, sh, w, j, o)
    ensures Quiescent(s) <==> RelinkLeft(s, w, j, o) == 0
  {
    if Quiescent(s) {
      hide Settling, Shipment;
    } else if RelinkLeft(s, w, j, o) == 0 {
      RestIsQuiet(s, sh, w, j, o);
    }
  }

  lemma RestIsQuiet(s: Net, sh: Shape, w: Id, j: Id, o: Id)
    requires Relinking(s, sh, w, j, o) && RelinkLeft(s, w, j, o) == 0
    ensures Quiescent(s)
  {
    hide Relinking, RelinkLeft, Settling, Down, Up, Backlog, ShapeOk, InRing;
    RestStreams(s, sh, w, j, o);
    RestNodes(s, sh, w, j, o);
    forall b | b in s.nodes ensures s.nodes[b].mode == Running && Backlog(s, b) == [] {
      SettledShape(s, sh);
      TwoMembers(sh, w, j, b);
      QuietMode(s, sh, b);
    }
  }

  lemma RestStreams(s: Net, sh: Shape, w: Id, j: Id, o: Id)
    requires Relinking(s, sh, w, j, o) && RelinkLeft(s, w, j, o) == 0
    ensures s.udp == multiset{} && forall x: Id, y: Id :: Down(s, x, y) == [] && Up(s, x, y) == []
  {
    hide Locals, Tokens, Shipment, InRing;
    assert Down(s, w, j) == [] && Down(s, w, o) == [];
    forall x: Id, y: Id ensures Down(s, x, y) == [] && Up(s, x, y) == [] {}
  }

  lemma RestNodes(s: Net, sh: Shape, w: Id, j: Id, o: Id)
    requires Relinking(s, sh, w, j, o) && RelinkLeft(s, w, j, o) == 0
    ensures Settling(s, sh) && Member(sh, j) && Member(sh, w) && w != j
    ensures forall b {:trigger Backlog(s, b)} :: b in s.nodes ==> Backlog(s, b) == []
    ensures forall a :: a in s.nodes ==> InRing(s.nodes[a])
  {
    hide Settling, Shipment, InRing, Down, Backlog;
    SettledShape(s, sh);
    assert Backlog(s, j) == [] && Backlog(s, o) == [];
  }

  lemma SettledShape(s: Net, sh: Shape)
    requires Settling(s, sh)
    ensures ShapeOk(sh) && forall b :: b in s.nodes ==> Member(sh, b)
  {
  }

  // ---- the token ----

  lemma MaximumBounds(order: seq<Id>, nodes: map<Id, Node>, i: nat, d: nat, u: nat)
    requires RingOf(order, nodes) && i < |order| && FirstMaximum(order, nodes, i, d) && u < |order|
    ensures SpanAt(order, nodes, i, u) <= SpanAt(order, nodes, i, d)
    ensures u < d ==> SpanAt(order, nodes, i, u) < SpanAt(order, nodes, i, d)
  {
  }

  lemma FirstMaximumUnique(order: seq<Id>, nodes: map<Id, Node>, i: nat, c: nat, d: nat)
    requires RingOf(order, nodes) && i < |order| && FirstMaximum(order, nodes, i, c) && FirstMaximum(order, nodes, i, d)
    ensures c == d
  {
    hide SpanAt;
    assert c < |order| && d < |order|;
    hide FirstMaximum;
    MaximumBounds(order, nodes, i, c, d);
    MaximumBounds(order, nodes, i, d, c);
  }

  /** The split in event e starts the relinking. */
  lemma SplitRelinks(s: Net, sh: Shape, j: Id, m: Msg, b: Id, e: Event) returns (sh': Shape)
    requires InOrder(s, sh, {j}) && OnlyMessage(s, m, b) && Member(sh, b) && b in s.nodes && Enabled(s, e)
    requires (External(e) ==> Quiescent(s)) && m.Join? && m.src == j
    requires SplitsAt(s, e) && sh.lo[b] < sh.hi[b]
    ensures IsInsertion(sh, sh', b, j) && Relinking(Do(s, e), sh', b, j, sh.nxt[b])
    ensures RelinkLeft(Do(s, e), b, j, sh.nxt[b]) == ShippedCount(s.nodes[b]) + 3 + (if sh.nxt[b] != b then 1 else 0)
  {
    SplitterFields(s, sh, j, b);
    hide Do, Enabled, Quiescent, OnlyMessage, InOrder, Still, Normal, SplitsAt, Splits, IsInsertion, Receive;
    var rest := TokenDelivers(s, sh, j, m, b, e);
    sh' := TokenSplits(s, sh, j, m, b, e);
    SplitEffect(rest, sh, map[], b, m);
    RelinkStart(rest, Do(s, e), sh, sh', b, j, sh.nxt[b]);
  }

  lemma SplitterFields(s: Net, sh: Shape, j: Id, b: Id)
    requires InOrder(s, sh, {j}) && Member(sh, b) && b in s.nodes
    ensures sh.nxt[b] in s.nodes && s.nodes[b].lo == sh.lo[b] && s.nodes[b].hi == sh.hi[b]
  {
    assert CleanNode(s, sh, b) && Member(sh, sh.nxt[b]);
  }

  /** How many events a join still takes while its token has been passed on t times; d is the distance of
      the first node of maximal span, w is that node. */
  ghost function SoughtLeft(w: Node, n: nat, d: nat, t: nat): int {
    if n == 1 then 1 + ShippedCount(w) + 3 else n + d - t + 1 + ShippedCount(w) + 4
  }

  /** The node that will split. */
  ghost predicate WillSplit(sh: Shape, nodes: map<Id, Node>, i: nat, d: nat, w: Id) {
    && i < |sh.order| && w in nodes
    && if |sh.order| == 1 then w == sh.order[0]
       else RingOf(sh.order, nodes) && FirstMaximum(sh.order, nodes, i, d) && SpanAt(sh.order, nodes, i, d) > 0
            && w == Visited(sh.order, i, d)
  }

  lemma SplitterWide(s: Net, sh: Shape, j: Id, i: nat, d: nat, w: Id)
    requires InOrder(s, sh, {j}) && WillSplit(sh, s.nodes, i, d, w)
    ensures Member(sh, w) && sh.lo[w] < sh.hi[w] && (sh.nxt[w] == w <==> |sh.order| == 1)
  {
    if |sh.order| > 1 {
      SpanIsSize(s, sh, {j}, i, d);
    } else {
      assert Member(sh, sh.order[0]);
    }
    AloneIff(sh, w);
  }

  lemma StopsOnTime(s: Net, sh: Shape, j: Id, i: nat, t: nat, d: nat, w: Id, e: Event)
    requires TokenTravels(s, sh, j, i, t) && |sh.order| > 1 && Enabled(s, e) && (External(e) ==> Quiescent(s))
    requires WillSplit(sh, s.nodes, i, d, w)
    ensures SplitsAt(s, e) <==> t == |sh.order| + d
    ensures t <= |sh.order| + d
    ensures SplitsAt(s, e) ==> Visited(sh.order, i, t) == w
  {
    hide Do, Enabled, Quiescent, SplitsAt, InOrder, OnlyMessage, TokenAfter;
    SplitsIffStops(s, sh, j, i, t, e);
    TokenStops(sh.order, s.nodes, j, i, d);
    if StopsAt(sh.order, s.nodes, j, i, t) {
      var c := StopIsFirst(sh.order, s.nodes, j, i, t);
      FirstMaximumUnique(sh.order, s.nodes, i, c, d);
    }
  }

  /** The join has come to the split: the answer is out. */
  lemma SoughtSplits(s: Net, sh: Shape, j: Id, i: nat, t: nat, d: nat, w: Id, e: Event) returns (sh': Shape)
    requires TokenTravels(s, sh, j, i, t) && WillSplit(sh, s.nodes, i, d, w) && SplitsAtIf(s, e)
    requires Enabled(s, e) && !External(e) && (|sh.order| > 1 ==> t == |sh.order| + d && Visited(sh.order, i, t) == w)
    ensures w in sh.nxt && IsInsertion(sh, sh', w, j) && Relinking(Do(s, e), sh', w, j, sh.nxt[w])
    ensures RelinkLeft(Do(s, e), w, j, sh.nxt[w]) == SoughtLeft(s.nodes[w], |sh.order|, d, t) - 1
  {
    SplitterWide(s, sh, j, i, d, w);
    var m := if |sh.order| == 1 then Join(j, 0, 0) else TokenAfter(sh.order, s.nodes, j, i, t);
    hide Do, Enabled, InOrder, OnlyMessage, Relinking, RelinkLeft, ShippedCount;
    sh' := SplitRelinks(s, sh, j, m, w, e);
  }

  ghost predicate SplitsAtIf(s: Net, e: Event) {
    Enabled(s, e) && SplitsAt(s, e)
  }

  lemma SoughtOnly(s: Net, sh: Shape, j: Id, i: nat, t: nat, e: Event)
    requires TokenTravels(s, sh, j, i, t) && |sh.order| == 1 && Enabled(s, e) && !External(e)
    ensures SplitsAtIf(s, e) && i == 0 && t == 0
  {
    hide Do, Quiescent;
    var sh' := AloneSplits(s, sh, j, e);
  }

  lemma {:induction false} SoughtEndsIn(s: Net, sh: Shape, j: Id, i: nat, t: nat, d: nat, w: Id, es: seq<Event>)
    requires TokenTravels(s, sh, j, i, t) && WillSplit(sh, s.nodes, i, d, w) && IsRun(s, es) && Busy(es)
    requires |sh.order| > 1 ==> t <= |sh.order| + d
    ensures |es| <= SoughtLeft(s.nodes[w], |sh.order|, d, t)
    ensures Quiescent(After(s, es)) <==> |es| == SoughtLeft(s.nodes[w], |sh.order|, d, t)
    decreases |es|
  {
    hide Do, Enabled, TokenTravels, Relinking, RelinkLeft, Quiescent, ShippedCount,
         FirstMaximum, RingOf, SplitsAtIf, SplitsAt;
    if es == [] {
      SoughtNotQuiet(s, Sought(sh, j, i, t));
    } else {
      BusyTail(es);
      var split := SoughtOne(s, sh, j, i, t, d, w, es[0]);
      if split {
        var sh' := SoughtSplits(s, sh, j, i, t, d, w, es[0]);
        RelinkRun(Do(s, es[0]), sh', w, j, sh.nxt[w], es[1..]);
        RelinkedIffQuiet(After(s, es), sh', w, j, sh.nxt[w]);
      } else {
        SoughtEndsIn(Do(s, es[0]), sh, j, i, t + 1, d, w, es[1..]);
      }
    }
  }

  lemma SoughtOne(s: Net, sh: Shape, j: Id, i: nat, t: nat, d: nat, w: Id, e: Event) returns (split: bool)
    requires TokenTravels(s, sh, j, i, t) && WillSplit(sh, s.nodes, i, d, w) && Enabled(s, e) && !External(e)
    requires |sh.order| > 1 ==> t <= |sh.order| + d
    ensures split ==> SplitsAtIf(s, e) && (|sh.order| > 1 ==> t == |sh.order| + d && Visited(sh.order, i, t) == w)
    ensures !split ==> |sh.order| > 1 && t < |sh.order| + d
                       && Do(s, e).nodes == s.nodes && TokenTravels(Do(s, e), sh, j, i, t + 1)
  {
    hide Do, Enabled, Quiescent, FirstMaximum, InOrder, OnlyMessage;
    if |sh.order| == 1 {
      SoughtOnly(s, sh, j, i, t, e);
      split := true;
    } else {
      StopsOnTime(s, sh, j, i, t, d, w, e);
      split := SplitsAt(s, e);
      if !split {
        PassStep(s, sh, j, i, t, e);
      }
    }
  }

  /** How often the token is passed on before w splits. */
  function Passes(n: nat, d: nat): nat {
    if n == 1 then 0 else n + d
  }

  /** The token travels until it has been passed on that often; the next event is the split. */
  lemma {:induction false} SoughtUntil(s: Net, sh: Shape, j: Id, i: nat, t: nat, d: nat, w: Id, es: seq<Event>)
    returns (sh': Shape)
    requires TokenTravels(s, sh, j, i, t) && WillSplit(sh, s.nodes, i, d, w) && IsRun(s, es) && Busy(es)
    requires t <= Passes(|sh.order|, d)
    ensures if t + |es| <= Passes(|sh.order|, d) then TokenTravels(After(s, es), sh, j, i, t + |es|)
            else IsInsertion(sh, sh', w, j) && Settling(After(s, es), sh')
    decreases |es|
  {
    hide Do, Enabled, TokenTravels, Relinking, RelinkLeft, Quiescent, IsInsertion,
         FirstMaximum, RingOf, SplitsAtIf, SplitsAt, Settling;
    if es == [] {
      sh' := sh;
    } else {
      BusyTail(es);
      var split := SoughtOne(s, sh, j, i, t, d, w, es[0]);
      if split {
        sh' := SoughtSplits(s, sh, j, i, t, d, w, es[0]);
        RelinkRun(Do(s, es[0]), sh', w, j, sh.nxt[w], es[1..]);
        RelinkingSettles(After(s, es), sh', w, j, sh.nxt[w]);
      } else {
        sh' := SoughtUntil(Do(s, es[0]), sh, j, i, t + 1, d, w, es[1..]);
      }
    }
  }

  lemma RelinkingSettles(s: Net, sh: Shape, w: Id, j: Id, o: Id)
    requires Relinking(s, sh, w, j, o)
    ensures Settling(s, sh)
  {
  }

  /** Every one of the first 255 joins is answered, and exactly when: in a ring of n < 256 nodes the token is
      passed on n + d times, d being the distance of the first node w of maximal span behind the entry node;
      the next delivery makes w split, and w is where the joiner gets its place. */
  lemma JoinIsAnswered(s: Net, sh: Shape, es: seq<Event>) returns (i: nat, d: nat, w: Id, sh': Shape)
    requires Clean(s, sh) && |s.nodes| < 256 && JoinRound(s, es)
    ensures i < |sh.order| && sh.order[i] == es[0].entry && WillSplit(sh, Do(s, es[0]).nodes, i, d, w)
    ensures if |es| <= 1 + Passes(|sh.order|, d) then
              TokenTravels(After(s, es), sh, es[0].j, i, |es| - 1)
            else
              IsInsertion(sh, sh', w, es[0].j) && Settling(After(s, es), sh')
  {
    hide Clean, Do, Enabled, WillSplit, TokenTravels, Settling, IsInsertion;
    i, d, w := SplitterExists(s, sh, es[0]);
    var k := SeekStart(s, sh, es[0]);
    CleanDistinct(s, sh);
    sh' := SoughtUntil(Do(s, es[0]), sh, es[0].j, i, 0, d, w, es[1..]);
  }

  /** How many events a join takes that is split for by w: the start, the deliveries of the token, and for
      the relinking the joiner's and the old successor's accepts, the answer, a NET_CLOSE_CONNECTION unless
      w was alone, and a read for every entry shipped. */
  ghost function JoinLength(w: Node, n: nat, d: nat): int {
    1 + SoughtLeft(w, n, d, 0)
  }

  lemma WillSplitExists(s: Net, sh: Shape, j: Id, i: nat) returns (d: nat, w: Id)
    requires TokenTravels(s, sh, j, i, 0) && |sh.order| < 256
    ensures WillSplit(sh, s.nodes, i, d, w)
  {
    if |sh.order| == 1 {
      d, w := 0, sh.order[0];
      assert Member(sh, w) && CleanNode(s, sh, w);
    } else {
      hide OnlyMessage, TokenAfter, CleanNode;
      d := FirstMaximumExists(sh.order, s.nodes, i);
      w := Visited(sh.order, i, d);
      SpaceSomewhere(s, sh, j, i, d);
    }
  }

  lemma SpaceSomewhere(s: Net, sh: Shape, j: Id, i: nat, d: nat)
    requires InOrder(s, sh, {j}) && 1 < |sh.order| < 256 && i < |sh.order| && RingOf(sh.order, s.nodes)
    requires FirstMaximum(sh.order, s.nodes, i, d)
    ensures SpanAt(sh.order, s.nodes, i, d) > 0 && Visited(sh.order, i, d) in s.nodes
  {
    RoomIff(sh.order, sh.lo, sh.hi);
    var x :| 0 <= x < |sh.order| && sh.lo[sh.order[x]] < sh.hi[sh.order[x]];
    assert Member(sh, sh.order[x]) && CleanNode(s, sh, sh.order[x]);
    var u := Hops(i, x, |sh.order|);
    HopsReach(i, x, |sh.order|, u);
    assert SpanAt(sh.order, s.nodes, i, u) <= SpanAt(sh.order, s.nodes, i, d);
    SpanBounds(sh.order, s.nodes, i, d);
  }

  lemma JoinEndsFor(s: Net, sh: Shape, es: seq<Event>, i: nat, d: nat, w: Id)
    requires Clean(s, sh) && JoinRound(s, es) && i < |sh.order| && sh.order[i] == es[0].entry
    requires WillSplit(sh, Do(s, es[0]).nodes, i, d, w)
    ensures w in s.nodes && |es| <= JoinLength(s.nodes[w], |sh.order|, d)
    ensures Quiescent(After(s, es)) <==> |es| == JoinLength(s.nodes[w], |sh.order|, d)
  {
    var k := SeekStart(s, sh, es[0]);
    assert k == i by { CleanDistinct(s, sh); }
    hide Clean, TokenTravels, SoughtLeft, WillSplit;
    SoughtEndsIn(Do(s, es[0]), sh, es[0].j, i, 0, d, w, es[1..]);
    SplitterWasThere(s, sh, es[0], i, d, w);
  }

  lemma CleanDistinct(s: Net, sh: Shape)
    requires Clean(s, sh)
    ensures Distinct(sh.order)
  {
  }

  lemma SplitterExists(s: Net, sh: Shape, e: Event) returns (i: nat, d: nat, w: Id)
    requires Clean(s, sh) && |s.nodes| < 256 && Enabled(s, e) && e.JoinStart?
    ensures i < |sh.order| && sh.order[i] == e.entry && WillSplit(sh, Do(s, e).nodes, i, d, w)
  {
    RingSize(s, sh);
    i := SeekStart(s, sh, e);
    hide Clean, TokenTravels, WillSplit;
    d, w := WillSplitExists(Do(s, e), sh, e.j, i);
  }

  /** Every join into a ring of fewer than 256 nodes drains: no schedule makes it last longer than its
      length, and the network is quiet again exactly when that many events have happened. */
  lemma JoinEnds(s: Net, sh: Shape, es: seq<Event>) returns (i: nat, d: nat, w: Id)
    requires Clean(s, sh) && |s.nodes| < 256 && JoinRound(s, es)
    ensures i < |sh.order| && sh.order[i] == es[0].entry && w in s.nodes
    ensures WillSplit(sh, Do(s, es[0]).nodes, i, d, w)
    ensures |es| <= JoinLength(s.nodes[w], |sh.order|, d)
    ensures Quiescent(After(s, es)) <==> |es| == JoinLength(s.nodes[w], |sh.order|, d)
  {
    hide Clean, WillSplit, JoinLength;
    i, d, w := SplitterExists(s, sh, es[0]);
    JoinEndsFor(s, sh, es, i, d, w);
  }

  lemma SplitterWasThere(s: Net, sh: Shape, e: Event, i: nat, d: nat, w: Id)
    requires Clean(s, sh) && Enabled(s, e) && e.JoinStart? && WillSplit(sh, Do(s, e).nodes, i, d, w)
    ensures w in s.nodes && Do(s, e).nodes[w] == s.nodes[w]
  {
    if |sh.order| == 1 {
      assert Member(sh, sh.order[0]);
    } else {
      NextVisited(sh, i, d);
    }
  }
}
