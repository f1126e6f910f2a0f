/** Messages that travel round a ring of nodes whose ranges stand still: how far a request goes, where
    a NET_JOIN stops, and how the splits it leads to share out the hash space. */
module RingWalk {
  import opened Base
  import opened Hash
  import opened Ranges
  import opened StoreSpec
  import opened NodeSpec
  import opened Ring

  /** The index reached from index i after t forwards in a ring of n. */
  ghost function Pos(i: nat, t: nat, n: nat): nat {
    if t == 0 then i else Succ(Pos(i, t - 1, n), n)
  }

  lemma {:induction false} PosInRing(i: nat, t: nat, n: nat)
    requires i < n
    ensures Pos(i, t, n) < n
  {
    if t > 0 {
      PosInRing(i, t - 1, n);
    }
  }

  /** Two rounds suffice for all that follows. */
  lemma {:induction false} PosIs(i: nat, t: nat, n: nat)
    requires i < n && t < 2 * n
    ensures Pos(i, t, n) == if i + t < n then i + t else if i + t < 2 * n then i + t - n else i + t - 2 * n
  {
    if t > 0 {
      PosIs(i, t - 1, n);
    }
  }

  lemma PosDistinct(i: nat, t: nat, u: nat, n: nat)
    requires i < n && u < t < 2 * n
    ensures Pos(i, t, n) == Pos(i, u, n) <==> t == u + n
  {
    PosIs(i, t, n);
    PosIs(i, u, n);
  }

  /** The nodes of a ring, in its order, all connected. */
  ghost predicate RingOf(order: seq<Id>, nodes: map<Id, Node>) {
    && |order| > 1 && Distinct(order) && 0 !in order
    && (forall i :: 0 <= i < |order| ==>
          order[i] in nodes && nodes[order[i]].lo <= nodes[order[i]].hi
          && nodes[order[i]].pred.Some? && nodes[order[i]].succ.Some?)
  }

  /** The node visited after t forwards, and its span. */
  ghost function Visited(order: seq<Id>, i: nat, t: nat): Id
    requires i < |order|
  {
    PosInRing(i, t, |order|);
    order[Pos(i, t, |order|)]
  }

  ghost function SpanAt(order: seq<Id>, nodes: map<Id, Node>, i: nat, t: nat): int
    requires RingOf(order, nodes) && i < |order|
  {
    Span(nodes[Visited(order, i, t)])
  }

  lemma SpanBounds(order: seq<Id>, nodes: map<Id, Node>, i: nat, t: nat)
    requires RingOf(order, nodes) && i < |order|
    ensures Visited(order, i, t) in nodes && Visited(order, i, t) != 0 && 0 <= SpanAt(order, nodes, i, t) <= LAST
  {
    PosInRing(i, t, |order|);
    assert order[Pos(i, t, |order|)] in nodes;
  }

  // ---- requests ----

  /** The distance from index i to index o in a ring of n. */
  function Hops(i: nat, o: nat, n: nat): nat
    requires i < n && o < n
  {
    if i <= o then o - i else o + n - i
  }

  lemma {:induction false} HopsReach(i: nat, o: nat, n: nat, t: nat)
    requires i < n && o < n && t <= Hops(i, o, n)
    ensures Hops(i, o, n) <= n - 1
    ensures Pos(i, t, n) == o <==> t == Hops(i, o, n)
  {
    PosIs(i, t, n);
  }

  /** Routing: on a tiled ring exactly one node accepts a key, and a request that enters anywhere is
      forwarded by every node before it and by no other, at most n - 1 times. */
  lemma Routing(order: seq<Id>, lo: map<Id, int>, hi: map<Id, int>, k: Ssn, i: nat) returns (o: nat)
    requires Tiles(order, lo, hi) && i < |order|
    ensures o < |order| && Hops(i, o, |order|) <= |order| - 1
    ensures forall x :: 0 <= x < |order| ==> (InRange(HashOf(k), lo[order[x]], hi[order[x]]) <==> x == o)
    ensures forall t: nat :: t < Hops(i, o, |order|) ==>
              var b := Visited(order, i, t); b in lo && b in hi && !InRange(HashOf(k), lo[b], hi[b])
    ensures Visited(order, i, Hops(i, o, |order|)) == order[o]
  {
    o := OwnerExists(order, lo, hi, HashOf(k), |order| - 1);
    forall x | 0 <= x < |order| ensures InRange(HashOf(k), lo[order[x]], hi[order[x]]) <==> x == o {
      if InRange(HashOf(k), lo[order[x]], hi[order[x]]) {
        OwnerUnique(order, lo, hi, HashOf(k), x, o);
      }
    }
    var h := Hops(i, o, |order|);
    HopsReach(i, o, |order|, h);
    forall t: nat | t < h
      ensures var b := Visited(order, i, t); b in lo && b in hi && !InRange(HashOf(k), lo[b], hi[b])
    {
      HopsReach(i, o, |order|, t);
      PosInRing(i, t, |order|);
      assert order[Pos(i, t, |order|)] in lo;
    }
  }

  // ---- the token ----

  /** The NET_JOIN of src after t nodes have passed it on, from the one at index i. */
  ghost function TokenAfter(order: seq<Id>, nodes: map<Id, Node>, src: Id, i: nat, t: nat): (m: Msg)
    requires RingOf(order, nodes) && i < |order|
    ensures m.Join? && m.src == src
  {
    if t == 0 then Join(src, 0, 0)
    else
      SpanBounds(order, nodes, i, t - 1);
      var b := Visited(order, i, t - 1);
      PassOn(b, nodes[b], TokenAfter(order, nodes, src, i, t - 1))
  }

  /** The node that the token has reached after t forwards answers it. */
  ghost predicate StopsAt(order: seq<Id>, nodes: map<Id, Node>, src: Id, i: nat, t: nat)
    requires RingOf(order, nodes) && i < |order|
  {
    TokenAfter(order, nodes, src, i, t).maxId == Visited(order, i, t)
  }

  /** What stopping and going on mean: the handler splits, or forwards the next token. */
  lemma HandlerAgrees(order: seq<Id>, nodes: map<Id, Node>, src: Id, i: nat, t: nat)
    requires RingOf(order, nodes) && i < |order|
    ensures Visited(order, i, t) in nodes
    ensures var b := Visited(order, i, t);
            var n := nodes[b];
            var m := TokenAfter(order, nodes, src, i, t);
            var (n', out) := HandleJoin(b, n, src, m.maxSpan, m.maxId);
            if StopsAt(order, nodes, src, i, t) then out.before == [Close] && out.connect && n'.succ == Some(src)
            else n' == n && out == SILENT.(after := [TokenAfter(order, nodes, src, i, t + 1)])
  {
    SpanBounds(order, nodes, i, t);
  }

  /** j is the distance of the first node of maximal span, in visit order from index i. */
  ghost predicate FirstMaximum(order: seq<Id>, nodes: map<Id, Node>, i: nat, j: nat)
    requires RingOf(order, nodes) && i < |order|
  {
    && j < |order|
    && (forall u: nat :: u < |order| ==> SpanAt(order, nodes, i, u) <= SpanAt(order, nodes, i, j))
    && (forall u: nat :: u < j ==> SpanAt(order, nodes, i, u) < SpanAt(order, nodes, i, j))
  }

  lemma {:induction false} FirstMaximumUpTo(order: seq<Id>, nodes: map<Id, Node>, i: nat, upto: nat) returns (j: nat)
    requires RingOf(order, nodes) && i < |order| && 0 < upto
    ensures j < upto
    ensures forall u: nat :: u < upto ==> SpanAt(order, nodes, i, u) <= SpanAt(order, nodes, i, j)
    ensures forall u: nat :: u < j ==> SpanAt(order, nodes, i, u) < SpanAt(order, nodes, i, j)
  {
    if upto == 1 {
      j := 0;
    } else {
      j := FirstMaximumUpTo(order, nodes, i, upto - 1);
      if SpanAt(order, nodes, i, j) < SpanAt(order, nodes, i, upto - 1) {
        j := upto - 1;
      }
    }
  }

  lemma FirstMaximumExists(order: seq<Id>, nodes: map<Id, Node>, i: nat) returns (j: nat)
    requires RingOf(order, nodes) && i < |order|
    ensures FirstMaximum(order, nodes, i, j)
  {
    j := FirstMaximumUpTo(order, nodes, i, |order|);
  }

  /** Before it has seen the first maximum the token names an earlier node, or none. */
  lemma {:induction false} TokenBefore(order: seq<Id>, nodes: map<Id, Node>, src: Id, i: nat, j: nat, t: nat)
    requires RingOf(order, nodes) && i < |order| && FirstMaximum(order, nodes, i, j) && t <= j
    requires SpanAt(order, nodes, i, j) > 0
    ensures var m := TokenAfter(order, nodes, src, i, t);
            && m.maxSpan < SpanAt(order, nodes, i, j)
            && (m.maxId == 0 || exists u: nat :: u < t && m.maxId == Visited(order, i, u))
  {
    if t > 0 {
      TokenBefore(order, nodes, src, i, j, t - 1);
      assert SpanAt(order, nodes, i, t - 1) < SpanAt(order, nodes, i, j);
    }
  }

  /** From then on it names the first maximum. */
  lemma {:induction false} TokenBeyond(order: seq<Id>, nodes: map<Id, Node>, src: Id, i: nat, j: nat, t: nat)
    requires RingOf(order, nodes) && i < |order| && FirstMaximum(order, nodes, i, j) && j < t
    requires SpanAt(order, nodes, i, j) > 0
    ensures var m := TokenAfter(order, nodes, src, i, t);
            m.maxSpan == SpanAt(order, nodes, i, j) && m.maxId == Visited(order, i, j)
    decreases t
  {
    if t == j + 1 {
      TokenBefore(order, nodes, src, i, j, j);
    } else {
      TokenBeyond(order, nodes, src, i, j, t - 1);
      SpanBelowMaximum(order, nodes, i, j, t - 1);
    }
  }

  lemma SpanBelowMaximum(order: seq<Id>, nodes: map<Id, Node>, i: nat, j: nat, t: nat)
    requires RingOf(order, nodes) && i < |order| && FirstMaximum(order, nodes, i, j)
    ensures SpanAt(order, nodes, i, t) <= SpanAt(order, nodes, i, j)
  {
    PosInRing(i, t, |order|);
    var p := Pos(i, t, |order|);
    var u := Hops(i, p, |order|);
    HopsReach(i, p, |order|, u);
    assert Visited(order, i, u) == Visited(order, i, t);
    assert SpanAt(order, nodes, i, u) <= SpanAt(order, nodes, i, j);
  }

  lemma VisitedDistinct(order: seq<Id>, i: nat, t: nat, u: nat)
    requires Distinct(order) && i < |order| && u < t < 2 * |order|
    ensures Visited(order, i, t) == Visited(order, i, u) <==> t == u + |order|
  {
    PosInRing(i, t, |order|);
    PosInRing(i, u, |order|);
    PosDistinct(i, t, u, |order|);
  }

  lemma NotBeforeRound(order: seq<Id>, nodes: map<Id, Node>, src: Id, i: nat, j: nat, t: nat)
    requires RingOf(order, nodes) && i < |order| && FirstMaximum(order, nodes, i, j)
    requires SpanAt(order, nodes, i, j) > 0 && t < |order| + j
    ensures !StopsAt(order, nodes, src, i, t)
  {
    SpanBounds(order, nodes, i, t);
    if t <= j {
      TokenBefore(order, nodes, src, i, j, t);
      var m := TokenAfter(order, nodes, src, i, t);
      if m.maxId != 0 {
        var u: nat :| u < t && m.maxId == Visited(order, i, u);
        VisitedDistinct(order, i, t, u);
      }
    } else {
      TokenBeyond(order, nodes, src, i, j, t);
      VisitedDistinct(order, i, t, j);
    }
  }

  /** Where the token stops: on a ring in which some node can split, the NET_JOIN that enters at index
      i is answered by the first node of maximal span in visit order, at distance j, after exactly
      n + j <= 2n - 1 forwards and not before; the split is of more than one value. */
  lemma TokenStops(order: seq<Id>, nodes: map<Id, Node>, src: Id, i: nat, j: nat)
    requires RingOf(order, nodes) && i < |order| && FirstMaximum(order, nodes, i, j)
    requires SpanAt(order, nodes, i, j) > 0
    ensures forall t: nat :: StopsAt(order, nodes, src, i, t) ==> t >= |order| + j
    ensures StopsAt(order, nodes, src, i, |order| + j)
    ensures Visited(order, i, |order| + j) == Visited(order, i, j)
    ensures |order| + j <= 2 * |order| - 1
  {
    forall t: nat | StopsAt(order, nodes, src, i, t) ensures t >= |order| + j {
      if t < |order| + j {
        NotBeforeRound(order, nodes, src, i, j, t);
      }
    }
    TokenBeyond(order, nodes, src, i, j, |order| + j);
    VisitedDistinct(order, i, |order| + j, j);
  }

  /** In a ring of single values the token keeps its first content. */
  lemma {:induction false} TokenUnchanged(order: seq<Id>, nodes: map<Id, Node>, src: Id, i: nat, t: nat)
    requires RingOf(order, nodes) && i < |order|
    requires forall u: nat :: SpanAt(order, nodes, i, u) <= 0
    ensures TokenAfter(order, nodes, src, i, t) == Join(src, 0, 0)
  {
    if t > 0 {
      TokenUnchanged(order, nodes, src, i, t - 1);
      assert SpanAt(order, nodes, i, t - 1) <= 0;
    }
  }

  /** The token is answered some time exactly if some node can split; otherwise it goes round for ever. */
  lemma TokenStopsIff(order: seq<Id>, nodes: map<Id, Node>, src: Id, i: nat)
    requires RingOf(order, nodes) && i < |order|
    ensures (exists t: nat :: StopsAt(order, nodes, src, i, t))
            <==> (exists x :: 0 <= x < |order| && Span(nodes[order[x]]) > 0)
  {
    var j := FirstMaximumExists(order, nodes, i);
    if SpanAt(order, nodes, i, j) > 0 {
      TokenStops(order, nodes, src, i, j);
      PosInRing(i, j, |order|);
    } else {
      forall u: nat ensures SpanAt(order, nodes, i, u) <= 0 {
        SpanBelowMaximum(order, nodes, i, j, u);
      }
      forall t: nat ensures !StopsAt(order, nodes, src, i, t) {
        TokenUnchanged(order, nodes, src, i, t);
        SpanBounds(order, nodes, i, t);
      }
      forall x | 0 <= x < |order| ensures Span(nodes[order[x]]) <= 0 {
        HopsReach(i, x, |order|, Hops(i, x, |order|));
        assert SpanAt(order, nodes, i, Hops(i, x, |order|)) == Span(nodes[order[x]]);
      }
    }
  }

  /** Why a token must not outlive a change of ranges: a node that a token names hands out a non-empty
      upper part of its range exactly if it has more than one value left; from [7, 7] it hands out
      [8, 7], and from [255, 255] the increment wraps and it hands out [0, 255]. */
  lemma AnswerIsUpperPartIff(self: Id, n: Node, src: Id, maxSpan: byte)
    requires n.pred.Some? && n.succ.Some? && n.lo <= n.hi
    ensures var (n', out) := HandleJoin(self, n, src, maxSpan, self);
            && out.after != [] && out.after[0].JoinResponse?
            && var r := out.after[0];
               (n.lo <= n'.hi && n'.hi + 1 == r.lo && r.lo <= r.hi == n.hi) <==> n.lo < n.hi
    ensures n.lo == n.hi == LAST ==> HandleJoin(self, n, src, maxSpan, self).1.after[0].lo == 0
  {
    hide Inserts, Keep, Outside;
    SplitIsLegalIff(n.lo, n.hi);
    assert Handover(n, n.succAddr)[0] == JoinResponse(n.succAddr, AfterMid(n.lo, n.hi), n.hi);
  }

  // ---- room for a join ----

  lemma {:induction false} StartAtLeast(order: seq<Id>, lo: map<Id, int>, hi: map<Id, int>, i: nat, m: nat)
    requires Tiles(order, lo, hi) && i < |order|
    requires forall x :: 0 <= x < |order| ==> hi[order[x]] - lo[order[x]] + 1 >= m
    ensures lo[order[i]] >= m * i
  {
    if i > 0 {
      StartAtLeast(order, lo, hi, i - 1, m);
      assert hi[order[i - 1]] + 1 == lo[order[i]];
    }
  }

  lemma {:induction false} EndAtMost(order: seq<Id>, lo: map<Id, int>, hi: map<Id, int>, i: nat)
    requires Tiles(order, lo, hi) && i < |order|
    ensures hi[order[i]] <= LAST - (|order| - 1 - i)
    decreases |order| - i
  {
    if i + 1 < |order| {
      EndAtMost(order, lo, hi, i + 1);
      assert hi[order[i]] + 1 == lo[order[i + 1]];
    }
  }

  lemma {:induction false} SinglesEnd(order: seq<Id>, lo: map<Id, int>, hi: map<Id, int>, i: nat)
    requires Tiles(order, lo, hi) && i < |order|
    requires forall x :: 0 <= x < |order| ==> hi[order[x]] == lo[order[x]]
    ensures hi[order[i]] == i
  {
    if i > 0 {
      SinglesEnd(order, lo, hi, i - 1);
      assert hi[order[i - 1]] + 1 == lo[order[i]];
    }
  }

  /** A tiled ring has a node that can split exactly if it has fewer than 256 nodes. */
  lemma RoomIff(order: seq<Id>, lo: map<Id, int>, hi: map<Id, int>)
    requires Tiles(order, lo, hi)
    ensures |order| <= 256
    ensures (exists x :: 0 <= x < |order| && lo[order[x]] < hi[order[x]]) <==> |order| < 256
  {
    StartAtLeast(order, lo, hi, |order| - 1, 1);
    if forall x :: 0 <= x < |order| ==> lo[order[x]] >= hi[order[x]] {
      SinglesEnd(order, lo, hi, |order| - 1);
    } else {
      var x :| 0 <= x < |order| && lo[order[x]] < hi[order[x]];
      StartAtLeast(order, lo, hi, x, 1);
      EndAtMost(order, lo, hi, x);
    }
  }

  // ---- load balance ----

  function Pow2(k: nat): (p: nat)
    ensures p > 0
  {
    if k == 0 then 1 else 2 * Pow2(k - 1)
  }

  ghost function SizeOf(sh: Shape, b: Id): int
    requires b in sh.lo && b in sh.hi
  {
    sh.hi[b] - sh.lo[b] + 1
  }

  /** All ranges have 2^k or 2^(k + 1) values. */
  ghost predicate BalancedBy(sh: Shape, k: nat) {
    forall b {:trigger Member(sh, b)} :: Member(sh, b) ==>
      b in sh.lo && b in sh.hi && (SizeOf(sh, b) == Pow2(k) || SizeOf(sh, b) == Pow2(k + 1))
  }

  ghost predicate Balanced(sh: Shape) {
    exists k: nat :: BalancedBy(sh, k)
  }

  ghost predicate Largest(sh: Shape, w: Id) {
    && Member(sh, w) && w in sh.lo && w in sh.hi
    && forall b {:trigger Member(sh, b)} :: Member(sh, b) && b in sh.lo && b in sh.hi ==> SizeOf(sh, b) <= SizeOf(sh, w)
  }

  lemma SplitHalves(sh: Shape, sh': Shape, w: Id, j: Id)
    requires ShapeOk(sh) && !Member(sh, j) && IsInsertion(sh, sh', w, j) && sh.lo[w] < sh.hi[w]
    requires SizeOf(sh, w) % 2 == 0
    ensures w in sh'.lo && w in sh'.hi && j in sh'.lo && j in sh'.hi
    ensures 2 * SizeOf(sh', w) == SizeOf(sh, w) && 2 * SizeOf(sh', j) == SizeOf(sh, w)
    ensures forall b {:trigger Member(sh, b)} :: Member(sh, b) && b != w ==>
              b in sh'.lo && b in sh'.hi && SizeOf(sh', b) == SizeOf(sh, b)
  {
    SplitIsLegalIff(sh.lo[w], sh.hi[w]);
  }

  /** Splitting a largest range keeps the ring balanced. */
  lemma SplitKeepsBalance(sh: Shape, sh': Shape, w: Id, j: Id)
    requires ShapeOk(sh) && Balanced(sh) && Largest(sh, w) && !Member(sh, j)
    requires IsInsertion(sh, sh', w, j) && sh.lo[w] < sh.hi[w]
    ensures Balanced(sh')
  {
    hide Tiles, AfterMid;
    var k: nat :| BalancedBy(sh, k);
    SplitHalves(sh, sh', w, j);
    assert k == 0 ==> SizeOf(sh, w) == Pow2(k + 1);
    var k': nat := if SizeOf(sh, w) == Pow2(k + 1) then k else k - 1;
    assert SizeOf(sh, w) == 2 * Pow2(k');
    forall b {:trigger Member(sh', b)} | Member(sh', b)
      ensures b in sh'.lo && b in sh'.hi && (SizeOf(sh', b) == Pow2(k') || SizeOf(sh', b) == Pow2(k' + 1))
    {
      assert Member(sh, b) || b == j;
    }
    assert BalancedBy(sh', k');
  }

  lemma {:induction false} EndAtLeast(order: seq<Id>, lo: map<Id, int>, hi: map<Id, int>, m: nat, w: nat, i: nat)
    requires Tiles(order, lo, hi) && w <= i < |order|
    requires forall x :: 0 <= x < |order| ==> hi[order[x]] - lo[order[x]] + 1 >= m
    requires hi[order[w]] - lo[order[w]] + 1 >= 2 * m
    ensures hi[order[i]] + 1 >= m * (i + 2)
    decreases i
  {
    if i == w {
      StartAtLeast(order, lo, hi, w, m);
      assert m * (w + 2) == m * w + 2 * m;
    } else {
      EndAtLeast(order, lo, hi, m, w, i - 1);
      assert hi[order[i - 1]] + 1 == lo[order[i]];
      assert m * (i + 2) == m * (i - 1 + 2) + m;
    }
  }

  lemma TwiceBelow(m: nat, n: nat)
    requires m > 0 && m * (n + 1) <= 256
    ensures 2 * m * n < 512
  {
    assert m * (n + 1) == m * n + m;
    assert 2 * m * n == 2 * (m * n);
  }

  /** Load balance: in a balanced ring of n nodes the largest range times n is below 512. */
  lemma BalanceBounds(sh: Shape, w: Id)
    requires ShapeOk(sh) && Balanced(sh) && Member(sh, w)
    ensures SizeOf(sh, w) * |sh.order| < 512
  {
    hide Linked;
    var k: nat :| BalancedBy(sh, k);
    var n := |sh.order|;
    var m := Pow2(k);
    var i := IndexOf(sh, w);
    forall x | 0 <= x < n ensures sh.hi[sh.order[x]] - sh.lo[sh.order[x]] + 1 >= m {
      assert Member(sh, sh.order[x]);
    }
    if SizeOf(sh, w) == m {
      StartAtLeast(sh.order, sh.lo, sh.hi, n - 1, m);
      assert m * n == m * (n - 1) + m <= 256;
    } else {
      EndAtLeast(sh.order, sh.lo, sh.hi, m, i, n - 1);
      TwiceBelow(m, n);
    }
  }

  /** The first ring is balanced, and has room. */
  lemma AloneIsBalanced(sh: Shape)
    requires ShapeOk(sh) && |sh.order| == 1
    ensures Balanced(sh)
  {
    assert Pow2(8) == 256 by { assert Pow2(4) == 16; assert Pow2(6) == 64; }
    forall b {:trigger Member(sh, b)} | Member(sh, b) ensures b in sh.lo && b in sh.hi && SizeOf(sh, b) == 256 {
      AloneIff(sh, b);
    }
    assert BalancedBy(sh, 8);
  }
}
