/** How far a message still has to travel in a ring that stands still. */
module NetDistance {
  import opened Base
  import opened Hash
  import opened Ranges
  import opened NodeSpec
  import opened Network
  import opened Ring
  import opened RingWalk
  import opened NetInv

  /** The number of forwards from index i to the first node of a goal, at most `fuel`. */
  ghost function Until(order: seq<Id>, i: nat, goal: set<Id>, fuel: nat): (u: nat)
    requires i < |order|
    ensures u <= fuel
    decreases fuel
  {
    if fuel == 0 || order[i] in goal then 0 else 1 + Until(order, Succ(i, |order|), goal, fuel - 1)
  }

  lemma {:induction false} PosShift(i: nat, t: nat, n: nat)
    requires i < n
    ensures Pos(Succ(i, n), t, n) == Pos(i, t + 1, n)
  {
    if t > 0 {
      PosShift(i, t - 1, n);
    }
  }

  /** Once the goal is in reach, more fuel makes no difference. */
  lemma {:induction false} UntilStable(order: seq<Id>, i: nat, goal: set<Id>, u: nat, fuel: nat)
    requires i < |order| && u <= fuel && Visited(order, i, u) in goal
    ensures Until(order, i, goal, fuel + 1) == Until(order, i, goal, fuel)
    decreases u
  {
    if order[i] !in goal {
      PosShift(i, u - 1, |order|);
      UntilStable(order, Succ(i, |order|), goal, u - 1, fuel - 1);
    }
  }

  /** Where b stands in the order. */
  ghost function Place(order: seq<Id>, b: Id): (i: nat)
    requires b in order
    ensures i < |order| && order[i] == b
  {
    var i: nat :| i < |order| && order[i] == b;
    i
  }

  /** The number of forwards from member b to the first member of a goal. */
  ghost function Far(sh: Shape, b: Id, goal: set<Id>): (u: nat)
    ensures u <= |sh.order|
  {
    if b in sh.order then Until(sh.order, Place(sh.order, b), goal, |sh.order|) else 0
  }

  /** A forward brings a message one nearer to its goal. */
  lemma FarStep(sh: Shape, b: Id, goal: set<Id>, c: Id)
    requires Linked(sh) && Member(sh, b) && b !in goal && Member(sh, c) && c in goal
    ensures Far(sh, sh.nxt[b], goal) == Far(sh, b, goal) - 1
  {
    var n := |sh.order|;
    assert b in sh.order && c in sh.order;
    var i, x := Place(sh.order, b), Place(sh.order, c);
    var k := Succ(i, n);
    assert sh.nxt[b] == sh.order[k];
    assert Place(sh.order, sh.nxt[b]) == k;
    HopsReach(k, x, n, Hops(k, x, n));
    UntilStable(sh.order, k, goal, Hops(k, x, n), n - 1);
  }

  // ---- what a message is looking for ----

  /** The members whose range holds the hash of k. */
  ghost function Owners(sh: Shape, k: Ssn): set<Id> {
    set b | b in sh.order && b in sh.lo && b in sh.hi && InRange(HashOf(k), sh.lo[b], sh.hi[b])
  }

  /** The members that can split. */
  ghost function Wide(sh: Shape): set<Id> {
    set b | b in sh.order && b in sh.lo && b in sh.hi && sh.lo[b] < sh.hi[b]
  }

  /** A token that names nobody looks for a node that can split, any other for the node it names. */
  ghost function TokenGoal(sh: Shape, maxId: Id): set<Id> {
    if maxId == 0 then Wide(sh) else {maxId}
  }

  /** A fresh token, or one that names a member. */
  ghost predicate TokenNamed(sh: Shape, t: Msg)
    requires t.Join?
  {
    if t.maxId == 0 then t.maxSpan == 0 else Member(sh, t.maxId)
  }

  /** More than any ring has nodes. */
  const ROUND: nat := 300

  /** More than any message has to go. */
  const FULL: nat := 256 * ROUND + ROUND

  /** How many deliveries a message in front of b takes at most, before it is done with or answered. */
  ghost function ToGo(sh: Shape, b: Id, m: Msg): nat {
    match m
    case Join(_, maxSpan, maxId) => (256 - maxSpan) * ROUND + Far(sh, b, TokenGoal(sh, maxId)) + 1
    case Insert(k, _) => Far(sh, b, Owners(sh, k)) + 1
    case Remove(k) => Far(sh, b, Owners(sh, k)) + 1
    case Lookup(k, _) => Far(sh, b, Owners(sh, k)) + 1
    case _ => 0
  }

  lemma ToGoBounds(sh: Shape, b: Id, m: Msg)
    requires ShapeOk(sh)
    ensures ToGo(sh, b, m) <= FULL
    ensures PlainMsg(m) ==> ToGo(sh, b, m) > 0
  {
    RoomIff(sh.order, sh.lo, sh.hi);
  }

  lemma SomeOwner(sh: Shape, k: Ssn) returns (c: Id)
    requires ShapeOk(sh)
    ensures Member(sh, c) && c in Owners(sh, k)
  {
    var i := OwnerExists(sh.order, sh.lo, sh.hi, HashOf(k), |sh.order| - 1);
    c := sh.order[i];
  }

  /** A request that b does not own comes nearer when b forwards it. */
  lemma RequestNearer(sh: Shape, b: Id, m: Msg)
    requires ShapeOk(sh) && Member(sh, b) && IsRequest(m)
    requires b in sh.lo && b in sh.hi && !InRange(HashOf(m.k), sh.lo[b], sh.hi[b])
    ensures ToGo(sh, sh.nxt[b], m) < ToGo(sh, b, m)
  {
    var c := SomeOwner(sh, m.k);
    FarStep(sh, b, Owners(sh, m.k), c);
  }

  lemma SomeWide(sh: Shape) returns (c: Id)
    requires ShapeOk(sh) && |sh.order| < 256
    ensures Member(sh, c) && c in Wide(sh)
  {
    RoomIff(sh.order, sh.lo, sh.hi);
    var i :| 0 <= i < |sh.order| && sh.lo[sh.order[i]] < sh.hi[sh.order[i]];
    c := sh.order[i];
  }

  /** So does a token that b passes on, or it names a larger span than before. */
  lemma TokenNearer(sh: Shape, b: Id, n: Node, m: Msg)
    requires ShapeOk(sh) && Member(sh, b) && |sh.order| < 256 && m.Join? && TokenNamed(sh, m) && b != 0 && m.maxId != b
    requires b in sh.lo && b in sh.hi && n.lo == sh.lo[b] && n.hi == sh.hi[b] && n.lo <= n.hi
    ensures ToGo(sh, sh.nxt[b], PassOn(b, n, m)) < ToGo(sh, b, m)
    ensures TokenNamed(sh, PassOn(b, n, m))
  {
    hide Linked, Far, Wide;
    if m.maxSpan < Span(n) {
      assert 256 - m.maxSpan >= 256 - Span(n) + 1;
    } else if m.maxId == 0 {
      NotWide(sh, b);
      var c := SomeWide(sh);
      FarStep(sh, b, Wide(sh), c);
    } else {
      FarStep(sh, b, {m.maxId}, m.maxId);
    }
  }

  lemma NotWide(sh: Shape, b: Id)
    requires b in sh.lo && b in sh.hi && sh.lo[b] >= sh.hi[b]
    ensures b !in Wide(sh)
  {
  }
}
