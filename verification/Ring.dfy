/** The ring as pure structure: nodes in successor order from the one whose range starts at 0, the
    two neighbour maps, and the ranges, which tile 0..255. Network invariants say that such a shape
    exists; splits and merges of the protocol are operations on it. */
module Ring {
  import opened Base
  import opened Ranges
  import opened StoreSpec

  datatype Shape = Shape(order: seq<Id>, nxt: map<Id, Id>, prv: map<Id, Id>,
                         lo: map<Id, int>, hi: map<Id, int>)

  /** The index after i in a cycle of n. */
  function Succ(i: nat, n: nat): nat {
    if i + 1 < n then i + 1 else 0
  }

  ghost predicate Member(sh: Shape, b: Id) {
    b in sh.nxt
  }

  /** order, nxt and prv describe one cycle through all members. */
  ghost predicate Linked(sh: Shape) {
    && |sh.order| > 0
    && Distinct(sh.order)
    && sh.prv.Keys == sh.nxt.Keys
    && (forall i :: 0 <= i < |sh.order| ==> sh.order[i] in sh.nxt)
    && (forall i, k {:trigger sh.order[i], sh.order[k]} ::
          0 <= i < |sh.order| && k == Succ(i, |sh.order|) ==> sh.nxt[sh.order[i]] == sh.order[k])
    && (forall b {:trigger b in sh.order} :: Member(sh, b) ==> b in sh.order)
    && (forall b {:trigger Member(sh, b)} :: Member(sh, b) ==>
          && sh.nxt[b] in sh.nxt && sh.prv[sh.nxt[b]] == b
          && sh.prv[b] in sh.nxt && sh.nxt[sh.prv[b]] == b)
  }

  /** Non-empty, contiguous, from 0 to 255. */
  ghost predicate Tiles(order: seq<Id>, lo: map<Id, int>, hi: map<Id, int>) {
    && |order| > 0
    && (forall i :: 0 <= i < |order| ==> order[i] in lo && order[i] in hi && 0 <= lo[order[i]] <= hi[order[i]] <= LAST)
    && lo[order[0]] == 0
    && hi[order[|order| - 1]] == LAST
    && (forall i, k {:trigger hi[order[i]], lo[order[k]]} ::
          0 <= i < |order| && k == i + 1 < |order| ==> hi[order[i]] + 1 == lo[order[k]])
  }

  ghost predicate ShapeOk(sh: Shape) {
    && Linked(sh)
    && Tiles(sh.order, sh.lo, sh.hi)
    && sh.lo.Keys == sh.hi.Keys == sh.nxt.Keys
  }

  lemma IndexOf(sh: Shape, b: Id) returns (i: nat)
    requires Linked(sh) && Member(sh, b)
    ensures i < |sh.order| && sh.order[i] == b
  {
    assert b in sh.order;
    i :| i < |sh.order| && sh.order[i] == b;
  }

  lemma {:induction false} StartsIncrease(order: seq<Id>, lo: map<Id, int>, hi: map<Id, int>, i: nat, j: nat)
    requires Tiles(order, lo, hi) && i < j < |order|
    ensures hi[order[i]] < lo[order[j]]
    decreases j - i
  {
    if i + 1 < j {
      StartsIncrease(order, lo, hi, i, j - 1);
    }
  }

  /** Exactly one node owns a hash value: existence. */
  lemma {:induction false} OwnerExists(order: seq<Id>, lo: map<Id, int>, hi: map<Id, int>, h: int, upto: nat)
    returns (i: nat)
    requires Tiles(order, lo, hi) && upto < |order| && 0 <= h <= hi[order[upto]]
    ensures i <= upto && InRange(h, lo[order[i]], hi[order[i]])
  {
    if lo[order[upto]] <= h {
      i := upto;
    } else {
      i := OwnerExists(order, lo, hi, h, upto - 1);
    }
  }

  /** Exactly one node owns a hash value: uniqueness. */
  lemma OwnerUnique(order: seq<Id>, lo: map<Id, int>, hi: map<Id, int>, h: int, i: nat, j: nat)
    requires Tiles(order, lo, hi) && i < |order| && j < |order|
    requires InRange(h, lo[order[i]], hi[order[i]]) && InRange(h, lo[order[j]], hi[order[j]])
    ensures i == j
  {
    if i < j {
      StartsIncrease(order, lo, hi, i, j);
    } else if j < i {
      StartsIncrease(order, lo, hi, j, i);
    }
  }

  /** Ownership in terms of nodes. */
  lemma OwnersAgree(sh: Shape, h: int, b: Id, c: Id)
    requires ShapeOk(sh) && Member(sh, b) && Member(sh, c)
    requires InRange(h, sh.lo[b], sh.hi[b]) && InRange(h, sh.lo[c], sh.hi[c])
    ensures b == c
  {
    var i := IndexOf(sh, b);
    var j := IndexOf(sh, c);
    OwnerUnique(sh.order, sh.lo, sh.hi, h, i, j);
  }

  lemma OwnerOf(sh: Shape, h: byte) returns (b: Id)
    requires ShapeOk(sh)
    ensures Member(sh, b) && InRange(h, sh.lo[b], sh.hi[b])
  {
    var i := OwnerExists(sh.order, sh.lo, sh.hi, h, |sh.order| - 1);
    b := sh.order[i];
  }

  /** A node is its own neighbour exactly in a ring of one, and exactly then owns everything. */
  lemma AloneIff(sh: Shape, b: Id)
    requires ShapeOk(sh) && Member(sh, b)
    ensures sh.nxt[b] == b <==> |sh.order| == 1
    ensures sh.prv[b] == b <==> |sh.order| == 1
    ensures sh.lo[b] == 0 && sh.hi[b] == LAST <==> |sh.order| == 1
  {
    var i := IndexOf(sh, b);
    if |sh.order| > 1 {
      assert sh.nxt[b] == sh.order[Succ(i, |sh.order|)] != b;
      assert sh.nxt[sh.prv[b]] == b;
      if i > 0 {
        StartsIncrease(sh.order, sh.lo, sh.hi, 0, i);
      } else {
        StartsIncrease(sh.order, sh.lo, sh.hi, 0, |sh.order| - 1);
      }
    }
  }

  /** The ring neighbours' ranges are adjacent, except across the wrap at 0. */
  lemma NeighbourRanges(sh: Shape, b: Id)
    requires ShapeOk(sh) && Member(sh, b)
    ensures sh.lo[sh.nxt[b]] == (if sh.hi[b] == LAST then 0 else sh.hi[b] + 1)
  {
    var i := IndexOf(sh, b);
    var n := |sh.order|;
    if i + 1 < n {
      assert sh.order[i + 1] == sh.nxt[b];
      assert sh.hi[sh.order[i]] + 1 == sh.lo[sh.order[i + 1]];
    }
  }

  // ---- a join: J takes the upper half of W's range and its place in the ring after W ----

  /** order' is order with j put behind index i. */
  ghost predicate Inserted(order: seq<Id>, order': seq<Id>, j: Id, i: nat) {
    && i < |order|
    && |order'| == |order| + 1
    && order'[i + 1] == j
    && (forall k {:trigger order'[k]} :: 0 <= k <= i ==> order'[k] == order[k])
    && (forall k {:trigger order'[k]} :: i + 1 < k < |order'| ==> order'[k] == order[k - 1])
  }

  ghost predicate IsInsertion(sh: Shape, sh': Shape, w: Id, j: Id) {
    && Member(sh, w) && w in sh.lo && w in sh.hi
    && 0 <= sh.lo[w] <= LAST && 0 <= sh.hi[w] <= LAST
    && (exists i: nat :: i < |sh.order| && sh.order[i] == w && Inserted(sh.order, sh'.order, j, i))
    && sh'.nxt == sh.nxt[w := j][j := sh.nxt[w]]
    && sh'.prv == sh.prv[sh.nxt[w] := j][j := w]
    && sh'.lo == sh.lo[j := AfterMid(sh.lo[w], sh.hi[w])]
    && sh'.hi == sh.hi[w := Mid(sh.lo[w], sh.hi[w])][j := sh.hi[w]]
  }

  lemma Insertion(sh: Shape, w: Id, j: Id) returns (sh': Shape)
    requires ShapeOk(sh) && Member(sh, w) && !Member(sh, j)
    ensures IsInsertion(sh, sh', w, j)
  {
    var i := IndexOf(sh, w);
    sh' := Shape(sh.order[..i + 1] + [j] + sh.order[i + 1..],
                 sh.nxt[w := j][j := sh.nxt[w]],
                 sh.prv[sh.nxt[w] := j][j := w],
                 sh.lo[j := AfterMid(sh.lo[w], sh.hi[w])],
                 sh.hi[w := Mid(sh.lo[w], sh.hi[w])][j := sh.hi[w]]);
    assert Inserted(sh.order, sh'.order, j, i);
  }

  lemma InsertedOrder(order: seq<Id>, order': seq<Id>, j: Id, i: nat)
    requires Distinct(order) && j !in order && Inserted(order, order', j, i)
    ensures Distinct(order')
    ensures forall b :: b in order ==> b in order'
  {
    forall b | b in order ensures b in order' {
      var k :| 0 <= k < |order| && order[k] == b;
      assert order'[if k <= i then k else k + 1] == b;
    }
  }

  lemma InsertionNext(sh: Shape, sh': Shape, w: Id, j: Id, i: nat, k: nat, l: nat)
    requires ShapeOk(sh) && !Member(sh, j) && IsInsertion(sh, sh', w, j)
    requires i < |sh.order| && sh.order[i] == w && Inserted(sh.order, sh'.order, j, i)
    requires k < |sh'.order| && l == Succ(k, |sh'.order|)
    ensures sh'.order[k] in sh'.nxt && sh'.nxt[sh'.order[k]] == sh'.order[l]
  {
    hide AfterMid, Tiles;
    var n := |sh.order|;
    assert sh'.order[l] == (if l <= i then sh.order[l] else if l == i + 1 then j else sh.order[l - 1]);
    if k <= i {
      assert sh.nxt[sh.order[k]] == sh.order[Succ(k, n)];
    } else if k == i + 1 {
      assert sh.nxt[sh.order[i]] == sh.order[Succ(i, n)];
    } else {
      assert sh.nxt[sh.order[k - 1]] == sh.order[Succ(k - 1, n)];
    }
  }

  lemma InsertionNeighbours(sh: Shape, sh': Shape, w: Id, j: Id, b: Id)
    requires ShapeOk(sh) && !Member(sh, j) && IsInsertion(sh, sh', w, j) && Member(sh', b)
    ensures sh'.prv.Keys == sh'.nxt.Keys
    ensures sh'.lo.Keys == sh'.hi.Keys == sh'.nxt.Keys
    ensures sh'.nxt[b] in sh'.nxt && sh'.prv[sh'.nxt[b]] == b
    ensures sh'.prv[b] in sh'.nxt && sh'.nxt[sh'.prv[b]] == b
  {
    assert Member(sh, b) || b == j;
    assert Member(sh, w);
  }

  lemma InsertionValues(sh: Shape, sh': Shape, w: Id, j: Id, i: nat, k: nat)
    requires ShapeOk(sh) && !Member(sh, j) && IsInsertion(sh, sh', w, j)
    requires i < |sh.order| && sh.order[i] == w && Inserted(sh.order, sh'.order, j, i) && k < |sh'.order|
    ensures var b := sh'.order[k];
            && b in sh'.lo && b in sh'.hi
            && sh'.lo[b] == (if k == i + 1 then AfterMid(sh.lo[w], sh.hi[w])
                            else sh.lo[sh.order[if k <= i then k else k - 1]])
            && sh'.hi[b] == (if k == i then Mid(sh.lo[w], sh.hi[w]) else sh.hi[sh.order[if k <= i then k else k - 1]])
  {
    var k0 := if k <= i then k else k - 1;
    assert sh.order[k0] in sh.nxt;
    if k != i && k != i + 1 {
      assert sh.order[k0] != w;
    }
  }

  /** What InsertionValues says of index k, for arbitrary range maps. */
  ghost predicate ValueAt(order: seq<Id>, lo: map<Id, int>, hi: map<Id, int>,
                          order': seq<Id>, lo': map<Id, int>, hi': map<Id, int>, i: nat, mid: int, k: nat)
  {
    && i < |order| && k < |order'| == |order| + 1
    && var k0 := if k <= i then k else k - 1;
       var b := order'[k];
       && b in lo' && b in hi' && order[k0] in lo && order[k0] in hi
       && lo'[b] == (if k == i + 1 then mid + 1 else lo[order[k0]])
       && hi'[b] == (if k == i then mid else hi[order[k0]])
  }

  lemma SplitTiles(order: seq<Id>, lo: map<Id, int>, hi: map<Id, int>,
                   order': seq<Id>, lo': map<Id, int>, hi': map<Id, int>, i: nat, mid: int)
    requires Tiles(order, lo, hi) && i < |order| && |order'| == |order| + 1
    requires lo[order[i]] <= mid < hi[order[i]]
    requires forall k: nat :: k < |order'| ==> ValueAt(order, lo, hi, order', lo', hi', i, mid, k)
    ensures Tiles(order', lo', hi')
  {
    var n := |order|;
    forall k | 0 <= k < n + 1
      ensures order'[k] in lo' && order'[k] in hi' && 0 <= lo'[order'[k]] <= hi'[order'[k]] <= LAST
    {
      assert ValueAt(order, lo, hi, order', lo', hi', i, mid, k);
    }
    forall h, k {:trigger hi'[order'[h]], lo'[order'[k]]} | 0 <= h < n + 1 && k == h + 1 < n + 1
      ensures hi'[order'[h]] + 1 == lo'[order'[k]]
    {
      assert ValueAt(order, lo, hi, order', lo', hi', i, mid, h);
      assert ValueAt(order, lo, hi, order', lo', hi', i, mid, k);
    }
    assert ValueAt(order, lo, hi, order', lo', hi', i, mid, 0);
    assert ValueAt(order, lo, hi, order', lo', hi', i, mid, n);
  }

  lemma InsertionTiles(sh: Shape, sh': Shape, w: Id, j: Id, i: nat)
    requires ShapeOk(sh) && !Member(sh, j) && IsInsertion(sh, sh', w, j) && sh.lo[w] < sh.hi[w]
    requires i < |sh.order| && sh.order[i] == w && Inserted(sh.order, sh'.order, j, i)
    ensures Tiles(sh'.order, sh'.lo, sh'.hi)
  {
    SplitIsLegalIff(sh.lo[w], sh.hi[w]);
    forall k: nat | k < |sh'.order|
      ensures ValueAt(sh.order, sh.lo, sh.hi, sh'.order, sh'.lo, sh'.hi, i, Mid(sh.lo[w], sh.hi[w]), k)
    {
      InsertionValues(sh, sh', w, j, i, k);
    }
    SplitTiles(sh.order, sh.lo, sh.hi, sh'.order, sh'.lo, sh'.hi, i, Mid(sh.lo[w], sh.hi[w]));
  }

  /** Splitting a range of more than one value keeps a ring. */
  lemma InsertionOk(sh: Shape, sh': Shape, w: Id, j: Id)
    requires ShapeOk(sh) && !Member(sh, j) && IsInsertion(sh, sh', w, j) && sh.lo[w] < sh.hi[w]
    ensures ShapeOk(sh')
  {
    hide Tiles, AfterMid, Mid;
    var i: nat :| i < |sh.order| && sh.order[i] == w && Inserted(sh.order, sh'.order, j, i);
    InsertedOrder(sh.order, sh'.order, j, i);
    forall k, l {:trigger sh'.order[k], sh'.order[l]} | 0 <= k < |sh'.order| && l == Succ(k, |sh'.order|)
      ensures sh'.order[k] in sh'.nxt && sh'.nxt[sh'.order[k]] == sh'.order[l]
    {
      InsertionNext(sh, sh', w, j, i, k, l);
    }
    forall k | 0 <= k < |sh'.order| ensures sh'.order[k] in sh'.nxt {
      InsertionNext(sh, sh', w, j, i, k, Succ(k, |sh'.order|));
    }
    forall b {:trigger Member(sh', b)} | Member(sh', b)
      ensures b in sh'.order
      ensures sh'.nxt[b] in sh'.nxt && sh'.prv[sh'.nxt[b]] == b
      ensures sh'.prv[b] in sh'.nxt && sh'.nxt[sh'.prv[b]] == b
    {
      InsertionNeighbours(sh, sh', w, j, b);
      assert Member(sh, b) || b == j;
    }
    assert Member(sh', j);
    InsertionNeighbours(sh, sh', w, j, j);
    InsertionTiles(sh, sh', w, j, i);
  }

  lemma LegalIffTiles(sh: Shape, sh': Shape, w: Id, j: Id, i: nat)
    requires ShapeOk(sh) && !Member(sh, j) && IsInsertion(sh, sh', w, j) && sh.lo[w] == sh.hi[w]
    requires i < |sh.order| && sh.order[i] == w && Inserted(sh.order, sh'.order, j, i)
    ensures !Tiles(sh'.order, sh'.lo, sh'.hi)
  {
    InsertionValues(sh, sh', w, j, i, i);
    InsertionValues(sh, sh', w, j, i, i + 1);
    var h, k := i, i + 1;
    assert sh'.hi[sh'.order[h]] + 1 != sh'.lo[sh'.order[k]] || sh'.lo[sh'.order[k]] > sh'.hi[sh'.order[k]];
  }

  /** A split keeps a ring exactly if the range holds more than one value: this is the guard that joins which
      overlap can break (NetOverlap). */
  lemma SplitOkIff(sh: Shape, sh': Shape, w: Id, j: Id)
    requires ShapeOk(sh) && !Member(sh, j) && IsInsertion(sh, sh', w, j)
    ensures ShapeOk(sh') <==> sh.lo[w] < sh.hi[w]
  {
    if sh.lo[w] < sh.hi[w] {
      InsertionOk(sh, sh', w, j);
    } else {
      var i: nat :| i < |sh.order| && sh.order[i] == w && Inserted(sh.order, sh'.order, j, i);
      assert sh.lo[sh.order[i]] <= sh.hi[sh.order[i]];
      LegalIffTiles(sh, sh', w, j, i);
    }
  }

  // ---- a leave: L's range goes to its successor if it starts at 0, else to its predecessor ----

  function Heir(sh: Shape, l: Id): Id
    requires l in sh.nxt && l in sh.prv && l in sh.lo
  {
    if sh.lo[l] == 0 then sh.nxt[l] else sh.prv[l]
  }

  /** order' is order without index i. */
  ghost predicate Removed(order: seq<Id>, order': seq<Id>, i: nat) {
    && i < |order|
    && |order'| == |order| - 1
    && (forall k {:trigger order'[k]} :: 0 <= k < i ==> order'[k] == order[k])
    && (forall k {:trigger order'[k]} :: i <= k < |order'| ==> order'[k] == order[k + 1])
  }

  ghost predicate IsRemoval(sh: Shape, sh': Shape, l: Id) {
    && Member(sh, l) && l in sh.prv && l in sh.lo && l in sh.hi
    && (exists i: nat :: i < |sh.order| && sh.order[i] == l && Removed(sh.order, sh'.order, i))
    && sh'.nxt == sh.nxt[sh.prv[l] := sh.nxt[l]] - {l}
    && sh'.prv == sh.prv[sh.nxt[l] := sh.prv[l]] - {l}
    && sh'.lo == (if sh.lo[l] == 0 then sh.lo[sh.nxt[l] := 0] else sh.lo) - {l}
    && sh'.hi == (if sh.lo[l] == 0 then sh.hi else sh.hi[sh.prv[l] := sh.hi[l]]) - {l}
  }

  lemma Removal(sh: Shape, l: Id) returns (sh': Shape)
    requires ShapeOk(sh) && Member(sh, l)
    ensures IsRemoval(sh, sh', l)
  {
    var i := IndexOf(sh, l);
    sh' := Shape(sh.order[..i] + sh.order[i + 1..],
                 sh.nxt[sh.prv[l] := sh.nxt[l]] - {l},
                 sh.prv[sh.nxt[l] := sh.prv[l]] - {l},
                 (if sh.lo[l] == 0 then sh.lo[sh.nxt[l] := 0] else sh.lo) - {l},
                 (if sh.lo[l] == 0 then sh.hi else sh.hi[sh.prv[l] := sh.hi[l]]) - {l});
    assert Removed(sh.order, sh'.order, i);
  }

  lemma RemovedOrder(order: seq<Id>, order': seq<Id>, i: nat)
    requires Distinct(order) && Removed(order, order', i)
    ensures Distinct(order')
    ensures forall b :: b in order && b != order[i] ==> b in order'
  {
    forall b | b in order && b != order[i] ensures b in order' {
      var k :| 0 <= k < |order| && order[k] == b;
      assert order'[if k < i then k else k - 1] == b;
    }
  }

  lemma RemovalNext(sh: Shape, sh': Shape, l: Id, i: nat, k: nat, m: nat)
    requires ShapeOk(sh) && IsRemoval(sh, sh', l) && |sh.order| > 1
    requires i < |sh.order| && sh.order[i] == l && Removed(sh.order, sh'.order, i)
    requires k < |sh'.order| && m == Succ(k, |sh'.order|)
    ensures sh'.order[k] in sh'.nxt && sh'.nxt[sh'.order[k]] == sh'.order[m]
  {
    var n := |sh.order|;
    var k0 := if k < i then k else k + 1;
    var k1 := Succ(k0, n);
    var b := sh.order[k0];
    assert sh'.order[k] == b && b != l;
    assert sh'.order[m] == (if m < i then sh.order[m] else sh.order[m + 1]);
    assert Member(sh, b) && Member(sh, l);
    assert sh.nxt[b] == sh.order[k1];
    if k1 == i {
      assert sh.prv[l] == b;
      assert sh.nxt[l] == sh.order[Succ(i, n)];
    } else {
      assert sh.nxt[b] != l;
      assert b != sh.prv[l];
    }
  }

  lemma RemovalNeighbours(sh: Shape, sh': Shape, l: Id, b: Id)
    requires ShapeOk(sh) && IsRemoval(sh, sh', l) && |sh.order| > 1 && Member(sh', b)
    ensures sh'.prv.Keys == sh'.nxt.Keys
    ensures sh'.lo.Keys == sh'.hi.Keys == sh'.nxt.Keys
    ensures sh'.nxt[b] in sh'.nxt && sh'.prv[sh'.nxt[b]] == b
    ensures sh'.prv[b] in sh'.nxt && sh'.nxt[sh'.prv[b]] == b
  {
    AloneIff(sh, l);
    assert Member(sh, b) && Member(sh, l);
    assert Member(sh, sh.prv[l]) && Member(sh, sh.nxt[l]);
    assert sh'.prv.Keys == sh'.nxt.Keys;
    assert sh'.lo.Keys == sh'.hi.Keys == sh'.nxt.Keys;
  }

  /** The first node's heir is behind it, any other node's is in front of it. */
  lemma HeirPlace(sh: Shape, l: Id, i: nat)
    requires ShapeOk(sh) && |sh.order| > 1 && i < |sh.order| && sh.order[i] == l
    ensures l in sh.nxt && l in sh.prv && l in sh.lo && l in sh.hi
    ensures if i == 0 then sh.lo[l] == 0 && sh.nxt[l] == sh.order[1] else sh.lo[l] != 0 && sh.prv[l] == sh.order[i - 1]
  {
    if i > 0 {
      StartsIncrease(sh.order, sh.lo, sh.hi, 0, i);
      assert sh.nxt[sh.order[i - 1]] == sh.order[i];
      assert Member(sh, sh.order[i - 1]);
    } else {
      assert sh.nxt[sh.order[0]] == sh.order[Succ(0, |sh.order|)];
    }
  }

  /** The range at index k, after the range at index i has gone to the heir. */
  ghost predicate MergedAt(order: seq<Id>, lo: map<Id, int>, hi: map<Id, int>,
                           order': seq<Id>, lo': map<Id, int>, hi': map<Id, int>, i: nat, k: nat)
  {
    && i < |order| && k < |order'| == |order| - 1
    && var k0 := if k < i then k else k + 1;
       var b := order'[k];
       && b in lo' && b in hi' && order[k0] in lo && order[k0] in hi && order[i] in hi
       && lo'[b] == (if i == 0 && k == 0 then 0 else lo[order[k0]])
       && hi'[b] == (if k + 1 == i then hi[order[i]] else hi[order[k0]])
  }

  lemma RemovalValues(sh: Shape, sh': Shape, l: Id, i: nat, k: nat)
    requires ShapeOk(sh) && IsRemoval(sh, sh', l) && |sh.order| > 1 && k < |sh'.order|
    requires i < |sh.order| && sh.order[i] == l && Removed(sh.order, sh'.order, i)
    ensures MergedAt(sh.order, sh.lo, sh.hi, sh'.order, sh'.lo, sh'.hi, i, k)
  {
    hide Tiles;
    HeirPlace(sh, l, i);
    var k0 := if k < i then k else k + 1;
    assert sh.order[k0] in sh.nxt && sh.order[k0] != l;
    assert k + 1 != i ==> i == 0 || sh.order[k0] != sh.order[i - 1];
    assert i == 0 && k > 0 ==> sh.order[k0] != sh.order[1];
  }

  lemma MergeTiles(order: seq<Id>, lo: map<Id, int>, hi: map<Id, int>,
                   order': seq<Id>, lo': map<Id, int>, hi': map<Id, int>, i: nat)
    requires Tiles(order, lo, hi) && i < |order| && |order'| == |order| - 1 > 0
    requires forall k: nat :: k < |order'| ==> MergedAt(order, lo, hi, order', lo', hi', i, k)
    ensures Tiles(order', lo', hi')
  {
    var n := |order'|;
    forall k | 0 <= k < n
      ensures order'[k] in lo' && order'[k] in hi' && 0 <= lo'[order'[k]] <= hi'[order'[k]] <= LAST
    {
      assert MergedAt(order, lo, hi, order', lo', hi', i, k);
      assert k + 1 == i ==> hi[order[k]] + 1 == lo[order[i]];
    }
    forall h, k {:trigger hi'[order'[h]], lo'[order'[k]]} | 0 <= h < n && k == h + 1 < n
      ensures hi'[order'[h]] + 1 == lo'[order'[k]]
    {
      assert MergedAt(order, lo, hi, order', lo', hi', i, h);
      assert MergedAt(order, lo, hi, order', lo', hi', i, k);
      assert h + 1 == i ==> hi[order[i]] + 1 == lo[order[k + 1]];
    }
    assert MergedAt(order, lo, hi, order', lo', hi', i, 0);
    assert MergedAt(order, lo, hi, order', lo', hi', i, n - 1);
  }

  lemma RemovalTiles(sh: Shape, sh': Shape, l: Id, i: nat)
    requires ShapeOk(sh) && IsRemoval(sh, sh', l) && |sh.order| > 1
    requires i < |sh.order| && sh.order[i] == l && Removed(sh.order, sh'.order, i)
    ensures Tiles(sh'.order, sh'.lo, sh'.hi)
  {
    hide Tiles, MergedAt, Linked;
    forall k: nat | k < |sh'.order| ensures MergedAt(sh.order, sh.lo, sh.hi, sh'.order, sh'.lo, sh'.hi, i, k) {
      RemovalValues(sh, sh', l, i, k);
    }
    MergeTiles(sh.order, sh.lo, sh.hi, sh'.order, sh'.lo, sh'.hi, i);
  }

  /** Handing a range to the heir keeps a ring. */
  lemma RemovalOk(sh: Shape, sh': Shape, l: Id)
    requires ShapeOk(sh) && IsRemoval(sh, sh', l) && |sh.order| > 1
    ensures ShapeOk(sh')
  {
    hide Tiles;
    var i: nat :| i < |sh.order| && sh.order[i] == l && Removed(sh.order, sh'.order, i);
    RemovedOrder(sh.order, sh'.order, i);
    forall k, m {:trigger sh'.order[k], sh'.order[m]} | 0 <= k < |sh'.order| && m == Succ(k, |sh'.order|)
      ensures sh'.order[k] in sh'.nxt && sh'.nxt[sh'.order[k]] == sh'.order[m]
    {
      RemovalNext(sh, sh', l, i, k, m);
    }
    forall k | 0 <= k < |sh'.order| ensures sh'.order[k] in sh'.nxt {
      RemovalNext(sh, sh', l, i, k, Succ(k, |sh'.order|));
    }
    forall b {:trigger Member(sh', b)} | Member(sh', b)
      ensures b in sh'.order
      ensures sh'.nxt[b] in sh'.nxt && sh'.prv[sh'.nxt[b]] == b
      ensures sh'.prv[b] in sh'.nxt && sh'.nxt[sh'.prv[b]] == b
    {
      RemovalNeighbours(sh, sh', l, b);
      assert Member(sh, b);
    }
    assert Member(sh', sh'.order[0]);
    RemovalNeighbours(sh, sh', l, sh'.order[0]);
    RemovalTiles(sh, sh', l, i);
  }

  lemma OrderRestored(order: seq<Id>, order': seq<Id>, order'': seq<Id>, j: Id, i: nat, i': nat)
    requires Distinct(order') && Inserted(order, order', j, i) && Removed(order', order'', i') && order'[i'] == j
    ensures order'' == order
  {
    assert i' == i + 1;
    forall k | 0 <= k < |order| ensures order''[k] == order[k] {
      assert order''[k] == order'[if k < i' then k else k + 1];
    }
  }

  lemma NeighboursRestored(sh: Shape, sh': Shape, sh'': Shape, w: Id, j: Id)
    requires Linked(sh) && !Member(sh, j) && IsInsertion(sh, sh', w, j) && IsRemoval(sh', sh'', j)
    ensures sh''.nxt == sh.nxt && sh''.prv == sh.prv
  {
    assert Member(sh, w);
    assert sh'.prv[j] == w && sh'.nxt[j] == sh.nxt[w];
    assert sh''.nxt == sh.nxt;
    assert sh''.prv == sh.prv;
  }

  lemma RangesRestored(sh: Shape, sh': Shape, sh'': Shape, w: Id, j: Id)
    requires sh.lo.Keys == sh.hi.Keys == sh.nxt.Keys && !Member(sh, j) && Linked(sh)
    requires IsInsertion(sh, sh', w, j) && sh.lo[w] < sh.hi[w] && IsRemoval(sh', sh'', j)
    ensures sh'.lo[j] != 0 && Heir(sh', j) == w && sh''.lo == sh.lo && sh''.hi == sh.hi
  {
    SplitIsLegalIff(sh.lo[w], sh.hi[w]);
    assert Member(sh, w);
    assert sh'.prv[j] == w;
    assert sh''.lo == sh.lo;
    assert sh''.hi == sh.hi;
  }

  /** Join and leave undo each other: if the newest node leaves at once, its heir is the node it
      split, and order, neighbours and ranges are those from before it came. */
  lemma JoinThenLeaveRestores(sh: Shape, sh': Shape, sh'': Shape, w: Id, j: Id)
    requires ShapeOk(sh) && !Member(sh, j)
    requires IsInsertion(sh, sh', w, j) && sh.lo[w] < sh.hi[w] && IsRemoval(sh', sh'', j)
    ensures ShapeOk(sh') && Heir(sh', j) == w && sh'' == sh
  {
    SplitIsLegalIff(sh.lo[w], sh.hi[w]);
    InsertionOk(sh, sh', w, j);
    var i: nat :| i < |sh.order| && sh.order[i] == w && Inserted(sh.order, sh'.order, j, i);
    var i': nat :| i' < |sh'.order| && sh'.order[i'] == j && Removed(sh'.order, sh''.order, i');
    OrderRestored(sh.order, sh'.order, sh''.order, j, i, i');
    NeighboursRestored(sh, sh', sh'', w, j);
    RangesRestored(sh, sh', sh'', w, j);
  }
}
