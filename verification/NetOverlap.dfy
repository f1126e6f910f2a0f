/** The split guard can be broken: a run of joins that overlap, in which a token names a node that has a
    single value left. */
module NetOverlap {
  import opened Base
  import opened Ranges
  import opened StoreSpec
  import opened NodeSpec
  import opened Network
  import opened NetViews
  import opened Ring
  import opened NetJoin
  import opened NetCore
  import opened NetLeave
  import opened NetTheorems
  import opened NetSafety
  import opened NetGuard
  import opened NetReach

  /** Event e takes s to s', within the guard of the safety theorems. */
  ghost predicate Step(s: Net, e: Event, s': Net) {
    Enabled(s, e) && SplitGuard(s, e) && Do(s, e) == s'
  }

  lemma Append<T>(x: T)
    ensures [] + [x] == [x] && [x][1..] == []
  {
  }

  /** A delivery, with the reaction already worked out. */
  lemma Delivered(s: Net, e: Event, s': Net, b: Id, m: Msg, rest: Net, n': Node, out: Out)
    requires Enabled(s, e) && Delivers(e) && DeliveryOf(s, e) == Delivery(b, m, rest)
    requires b in s.nodes && s.nodes[b].mode != LeaveWait && rest.nodes == s.nodes && React(s, b, m) == (n', out)
    requires Splits(s, b, m) ==> s.nodes[b].lo < s.nodes[b].hi
    requires Emit(rest, b, s.nodes[b], n', out) == s'
    ensures Step(s, e, s')
  {
    hide Handle, HandleJoinResponse, Emit, Depart;
  }

  ghost predicate Leads(s: Net, es: seq<Event>, end: Net) {
    GuardedRun(s, es) && After(s, es) == end
  }

  lemma {:induction false} LeadsOn(s: Net, es: seq<Event>, mid: Net, es': seq<Event>, end: Net)
    requires Leads(s, es, mid) && Leads(mid, es', end)
    ensures Leads(s, es + es', end)
    decreases |es|
  {
    hide Enabled, Do, SplitGuard;
    if es == [] {
      assert es + es' == es';
    } else {
      assert (es + es')[1..] == es[1..] + es';
      LeadsOn(Do(s, es[0]), es[1..], mid, es', end);
    }
  }

  lemma OneStep(s: Net, e: Event, s': Net)
    requires Step(s, e, s')
    ensures Leads(s, [e], s')
  {
    hide Enabled, Do, SplitGuard;
    assert [e][0] == e && [e][1..] == [];
    assert Leads(s', [], s');
  }

  // ---- the tokens gather ----

  function Token(j: Id, a: Id): Msg {
    Join(j, 127, a)
  }

  function Tokens(js: seq<Id>, a: Id): (ms: seq<Msg>)
    ensures |ms| == |js| && forall i {:trigger ms[i]} :: 0 <= i < |js| ==> ms[i] == Token(js[i], a)
  {
    seq(|js|, i requires 0 <= i < |js| => Token(js[i], a))
  }

  /** A running node with range [lo, hi] and one neighbour. */
  predicate HasRange(n: Node, lo: byte, hi: byte, other: Id) {
    n.mode == Running && n.lo == lo && n.hi == hi && n.succ == Some(other) && n.pred == Some(other)
  }

  /** The ring of a and b; some tokens that name a are on the way from b to a, and nothing else is. */
  ghost predicate Gathered(s: Net, a: Id, b: Id, ms: seq<Msg>) {
    && a != b && a != 0 && b != 0 && a in s.nodes && b in s.nodes
    && HasRange(s.nodes[a], 0, 127, b) && HasRange(s.nodes[b], 128, LAST, a)
    && Down(s, a, b) == [] && Down(s, b, a) == ms && s.udp == multiset{} && !s.leaving
  }

  lemma Enters(s: Net, a: Id, b: Id, ms: seq<Msg>, j: Id) returns (s': Net)
    requires Gathered(s, a, b, ms) && j !in s.nodes && j != 0
    ensures Step(s, JoinStart(j, a), s') && s'.nodes.Keys == s.nodes.Keys + {j}
    ensures s'.udp == multiset{Packet(a, Join(j, 0, 0))} && Gathered(s'.(udp := multiset{}), a, b, ms)
  {
    hide Handle, Emit;
    s' := Do(s, JoinStart(j, a));
    assert Down(s', a, b) == Down(s, a, b) && Down(s', b, a) == Down(s, b, a);
  }

  lemma IsNamed(s: Net, a: Id, b: Id, ms: seq<Msg>, j: Id) returns (s': Net)
    requires s.udp == multiset{Packet(a, Join(j, 0, 0))} && Gathered(s.(udp := multiset{}), a, b, ms)
    ensures Step(s, RecvUdp(Packet(a, Join(j, 0, 0))), s') && s'.nodes == s.nodes
    ensures s' == PushDown(s.(udp := multiset{}), a, b, [Token(j, a)])
  {
    var p, n := Packet(a, Join(j, 0, 0)), s.nodes[a];
    var rest, out := s.(udp := multiset{}), SILENT.(after := [Token(j, a)]);
    s' := PushDown(rest, a, b, [Token(j, a)]);
    assert s.udp - multiset{p} == multiset{};
    assert React(s, a, p.m) == (n, out) by {
      hide HandleValue, HandleNewRange, HandleLeaving, HandleClose, HandleJoinResponse, Keep, Inserts;
    }
    ForwardEmit(rest, a, n, b, Token(j, a));
    hide React, Emit;
    Delivered(s, RecvUdp(p), s', a, p.m, rest, n, out);
  }

  lemma GoesOn(s: Net, a: Id, b: Id, ms: seq<Msg>, j: Id) returns (s': Net)
    requires Gathered(s, a, b, ms)
    ensures var s1 := PushDown(s, a, b, [Token(j, a)]);
            Step(s1, RecvPred(b), s') && s'.nodes == s.nodes && Gathered(s', a, b, ms + [Token(j, a)])
  {
    var s1, n, m := PushDown(s, a, b, [Token(j, a)]), s.nodes[b], Token(j, a);
    Append(m);
    assert Down(s1, a, b) == [m];
    var rest, out := PopDown(s1, a, b), SILENT.(after := [m]);
    s' := PushDown(rest, b, a, [m]);
    assert React(s1, b, m) == (n, out) by {
      hide HandleValue, HandleNewRange, HandleLeaving, HandleClose, HandleJoinResponse, Keep, Inserts;
    }
    ForwardEmit(rest, b, n, a, m);
    hide React, Emit;
    assert Down(s', b, a) == Down(s, b, a) + [m] && Down(s', a, b) == [];
    Delivered(s1, RecvPred(b), s', b, m, rest, n, out);
  }

  lemma Gathers(s: Net, a: Id, b: Id, ms: seq<Msg>, j: Id) returns (es: seq<Event>, s': Net)
    requires Gathered(s, a, b, ms) && j !in s.nodes && j != 0
    ensures Leads(s, es, s') && Gathered(s', a, b, ms + [Token(j, a)]) && s'.nodes.Keys == s.nodes.Keys + {j}
  {
    hide Step, Leads, Gathered;
    var s1 := Enters(s, a, b, ms, j);
    var s2 := IsNamed(s1, a, b, ms, j);
    s' := GoesOn(s1.(udp := multiset{}), a, b, ms, j);
    OneStep(s, JoinStart(j, a), s1);
    OneStep(s1, RecvUdp(Packet(a, Join(j, 0, 0))), s2);
    OneStep(s2, RecvPred(b), s');
    es := [JoinStart(j, a)] + [RecvUdp(Packet(a, Join(j, 0, 0)))];
    LeadsOn(s, [JoinStart(j, a)], s1, [RecvUdp(Packet(a, Join(j, 0, 0)))], s2);
    LeadsOn(s, es, s2, [RecvPred(b)], s');
    es := es + [RecvPred(b)];
  }

  lemma {:induction false} GatherAll(s: Net, a: Id, b: Id, js: seq<Id>, i: nat) returns (es: seq<Event>, s': Net)
    requires i <= |js| && Distinct(js) && 0 !in js
    requires Gathered(s, a, b, Tokens(js[..i], a)) && forall k :: i <= k < |js| ==> js[k] !in s.nodes
    ensures Leads(s, es, s') && Gathered(s', a, b, Tokens(js, a))
    decreases |js| - i
  {
    hide Gathered;
    if i == |js| {
      assert js[..i] == js;
      es, s' := [], s;
    } else {
      hide Leads;
      var es1, s1 := Gathers(s, a, b, Tokens(js[..i], a), js[i]);
      assert Tokens(js[..i], a) + [Token(js[i], a)] == Tokens(js[..i + 1], a);
      var es2;
      es2, s' := GatherAll(s1, a, b, js, i + 1);
      LeadsOn(s, es1, s1, es2, s');
      es := es1 + es2;
    }
  }

  // ---- the node splits until one value is left ----

  /** Node a has [0, hi] left, and the tokens ms, which name it, are in front of it. */
  ghost predicate Besieged(s: Net, a: Id, b: Id, hi: byte, ms: seq<Msg>) {
    && a != b && a != 0 && a in s.nodes && Down(s, b, a) == ms
    && var n := s.nodes[a]; n.mode == Running && n.lo == 0 && n.hi == hi && n.pred == Some(b) && n.succ.Some?
  }

  lemma SplitOnce(s: Net, a: Id, b: Id, hi: byte, j: Id, ms: seq<Msg>) returns (s': Net)
    requires Besieged(s, a, b, hi, [Token(j, a)] + ms) && hi > 0
    ensures Step(s, RecvPred(a), s') && Besieged(s', a, b, hi / 2, ms)
  {
    var m, n := Token(j, a), s.nodes[a];
    var rest := PopDown(s, b, a);
    assert Down(rest, b, a) == ms;
    var h := Handover(n, n.succAddr);
    var n', out := KeepLower(n).(succ := Some(j), succAddr := j),
      SILENT.(before := [Close], connect := true, after := h);
    assert React(s, a, m) == (n', out) by {
      hide HandleValue, HandleNewRange, HandleLeaving, HandleClose, HandleJoinResponse, Keep, Inserts, Handover, Mid;
    }
    hide React, Keep, Handover;
    s' := Emit(rest, a, n, n', out);
    assert Down(s', b, a) == Down(rest, b, a) && s'.nodes == rest.nodes[a := n'] by {
      hide Mid, PushUp;
    }
    hide Emit;
    Delivered(s, RecvPred(a), s', a, m, rest, n', out);
  }

  /** How often a range [0, hi] can be split before one value is left. */
  function Halvings(hi: nat): nat {
    if hi == 0 then 0 else 1 + Halvings(hi / 2)
  }

  lemma {:induction false} SplitAll(s: Net, a: Id, b: Id, hi: byte, js: seq<Id>) returns (es: seq<Event>, s': Net)
    requires Besieged(s, a, b, hi, Tokens(js, a)) && |js| == Halvings(hi) + 1
    ensures Leads(s, es, s') && Besieged(s', a, b, 0, Tokens([js[|js| - 1]], a))
    decreases hi
  {
    hide Besieged;
    if hi == 0 {
      assert js == [js[|js| - 1]];
      es, s' := [], s;
    } else {
      hide Leads;
      assert Tokens(js, a) == [Token(js[0], a)] + Tokens(js[1..], a);
      var s1 := SplitOnce(s, a, b, hi, js[0], Tokens(js[1..], a));
      OneStep(s, RecvPred(a), s1);
      var es1;
      es1, s' := SplitAll(s1, a, b, hi / 2, js[1..]);
      LeadsOn(s, [RecvPred(a)], s1, es1, s');
      es := [RecvPred(a)] + es1;
    }
  }

  lemma OneTooMany(s: Net, a: Id, b: Id, j: Id)
    requires Besieged(s, a, b, 0, Tokens([j], a))
    ensures Enabled(s, RecvPred(a)) && !SplitGuard(s, RecvPred(a))
  {
    assert Down(s, b, a)[0] == Token(j, a);
  }

  /** In a ring of one, the shape after the first join. */
  lemma FirstSplit(s: Net, sh: Shape, sh': Shape, a: Id, b: Id, w: Id)
    requires Clean(s, sh) && sh.order == [a] && Linked(sh) && a != b && a != 0 && b != 0
    requires IsInsertion(sh, sh', w, b) && ShapeOk(sh')
    ensures w == a && Member(sh', a) && Member(sh', b)
    ensures sh'.nxt[a] == b && sh'.prv[a] == b && sh'.lo[a] == 0 && sh'.hi[a] == 127
    ensures sh'.nxt[b] == a && sh'.prv[b] == a && sh'.lo[b] == 128 && sh'.hi[b] == LAST
  {
    var i := IndexOf(sh, w);
    assert Member(sh, a);
    AloneIff(sh, a);
  }

  lemma CleanGathers(s: Net, sh: Shape, a: Id, b: Id)
    requires Clean(s, sh) && Member(sh, a) && Member(sh, b) && a != b && a != 0 && b != 0
    requires sh.nxt[a] == b && sh.prv[a] == b && sh.lo[a] == 0 && sh.hi[a] == 127
    requires sh.nxt[b] == a && sh.prv[b] == a && sh.lo[b] == 128 && sh.hi[b] == LAST
    ensures Gathered(s, a, b, [])
  {
    assert CleanNode(s, sh, a) && CleanNode(s, sh, b);
  }

  lemma TwoNodes(a: Id, b: Id) returns (es: seq<Event>, s: Net)
    requires a != b && a != 0 && b != 0
    ensures Leads(Initial(a), es, s) && Gathered(s, a, b, []) && s.nodes.Keys == {a, b}
  {
    hide Clean, GuardedRun, Gathered, IsInsertion;
    var sh := InitialClean(a);
    var sh', w;
    es, sh', w := OneMore(Initial(a), sh, a, b);
    s := After(Initial(a), es);
    CleanShape(Initial(a), sh);
    CleanShape(s, sh');
    FirstSplit(Initial(a), sh, sh', a, b, w);
    CleanGathers(s, sh', a, b);
  }

  lemma CleanShape(s: Net, sh: Shape)
    requires Clean(s, sh)
    ensures ShapeOk(sh)
  {
  }

  lemma GatheredBesieges(s: Net, a: Id, b: Id, ms: seq<Msg>)
    requires Gathered(s, a, b, ms)
    ensures Besieged(s, a, b, 127, ms)
  {
  }

  /** In a ring of any two nodes, eight further nodes that start joining at the same time break the guard:
      all eight tokens come to name the same node, which has one value left after seven of them. The next
      event is the eighth split, and then the ranges no longer tile the hash space. */
  lemma OverlappingJoins(a: Id, b: Id, js: seq<Id>) returns (es: seq<Event>, e: Event)
    requires a != b && a != 0 && b != 0
    requires |js| == 8 && Distinct(js) && forall k :: 0 <= k < 8 ==> js[k] !in {0, a, b}
    ensures GuardedRun(Initial(a), es)
    ensures var s := After(Initial(a), es);
            Enabled(s, e) && !SplitGuard(s, e) && forall order :: !Tiled(Do(s, e), order)
  {
    hide Gathered, Besieged, Enabled, Do, SplitGuard, Tiled;
    var es0, s0 := TwoNodes(a, b);
    assert js[..0] == [] && Tokens([], a) == [];
    var es1, s1 := GatherAll(s0, a, b, js, 0);
    GatheredBesieges(s1, a, b, Tokens(js, a));
    assert Halvings(127) == 7 by { assert Halvings(7) == 3 && Halvings(31) == 5; }
    var es2, s2 := SplitAll(s1, a, b, 127, js);
    LeadsOn(Initial(a), es0, s0, es1, s1);
    LeadsOn(Initial(a), es0 + es1, s1, es2, s2);
    es, e := es0 + es1 + es2, RecvPred(a);
    OneTooMany(s2, a, b, js[7]);
    TiledIffGuarded(a, es, e);
  }
}
