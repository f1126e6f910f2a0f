/** How much is left to do: a number that every event of a network in which nobody starts anything
    decreases, however many joins and requests are in progress. */
module NetShrink {
  import opened Base
  import opened Ranges
  import opened StoreSpec
  import opened NodeSpec
  import opened Network
  import opened NetViews
  import opened Ring
  import opened NetInv
  import opened NetSteps
  import opened NetJoin
  import opened NetData
  import opened NetDrainJoin
  import opened NetSum
  import opened NetLoad
  import opened NetDistance

  // ---- multiples ----

  ghost function Times(x: nat, h: nat): nat {
    if x == 0 then 0 else h + Times(x - 1, h)
  }

  lemma {:induction false} TimesSum(x: nat, y: nat, h: nat)
    ensures Times(x + y, h) == Times(x, h) + Times(y, h)
  {
    if x > 0 {
      TimesSum(x - 1, y, h);
    }
  }

  lemma {:induction false} TimesGrows(x: nat, y: nat, h: nat, g: nat)
    requires x <= y && h <= g
    ensures Times(x, h) <= Times(y, g)
  {
    if x > 0 {
      TimesGrows(x - 1, y - 1, h, g);
    }
  }

  lemma TimesOneMore(x: nat, y: nat, h: nat)
    requires x <= y + 1
    ensures Times(x, h) <= Times(y, h) + h
  {
    TimesGrows(x, y + 1, h, h);
  }

  // ---- what there is to do ----

  ghost function ForStore(nodes: map<Id, Node>): Id -> nat {
    b => if b in nodes then |nodes[b].store.keys| else 0
  }

  /** The number of entries the nodes of a list hold. */
  ghost function Entries(nodes: map<Id, Node>, order: seq<Id>): nat {
    Sum(order, ForStore(nodes))
  }

  ghost function ForQueue(s: Net): Id -> nat {
    b => |Backlog(s, b)|
  }

  /** The number of connections that wait to be accepted. */
  ghost function Waiting(s: Net, order: seq<Id>): nat {
    Sum(order, ForQueue(s))
  }

  /** A request or token has its way to go, and `hand` more; the answer to a joiner brings one accept. */
  ghost function Weigh(sh: Shape, hand: nat): Weight {
    (b: Id, m: Msg) => if PlainMsg(m) then ToGo(sh, b, m) + hand else if m.JoinResponse? then 2 else 1
  }

  /** The nodes that no split has given a place yet. */
  ghost function Outsiders(s: Net, sh: Shape): nat {
    if |sh.order| <= |s.nodes| then |s.nodes| - |sh.order| else 0
  }

  /** Every split to come can put every entry and every message on its way once more. */
  ghost function Hand(s: Net, sh: Shape): nat {
    Times(Outsiders(s, sh), FULL)
  }

  ghost function LeftWith(s: Net, sh: Shape, hand: nat): nat {
    Load(s, sh.order, Weigh(sh, hand)) + Times(Entries(s.nodes, sh.order), hand) + Waiting(s, sh.order)
    + Times(|s.udp|, hand + FULL)
  }

  ghost function Left(s: Net, sh: Shape): nat {
    LeftWith(s, sh, Hand(s, sh)) + 5 * Outsiders(s, sh)
  }

  // ---- taking a message in hand ----

  lemma UdpTaken(s: Net, sh: Shape, p: Packet, hand: nat)
    requires Locals(s, sh) && p in s.udp
    ensures LeftWith(s, sh, hand) == LeftWith(s.(udp := s.udp - multiset{p}), sh, hand) + hand + FULL
  {
    hide Locals, Weigh, Entries;
    var rest := s.(udp := s.udp - multiset{p});
    forall b ensures Backlog(rest, b) == Backlog(s, b) {}
    QuietLoad(s, rest, sh, Weigh(sh, hand));
    SumSame(sh.order, ForQueue(s), ForQueue(rest));
    assert |s.udp| == |rest.udp| + 1;
  }

  lemma PredTaken(s: Net, sh: Shape, b: Id, hand: nat)
    requires Locals(s, sh) && Member(sh, b) && b in s.nodes && s.nodes[b].pred.Some?
    requires Down(s, s.nodes[b].pred.value, b) != [] && PlainMsg(Down(s, s.nodes[b].pred.value, b)[0])
    ensures var x := s.nodes[b].pred.value;
            LeftWith(s, sh, hand) == LeftWith(PopDown(s, x, b), sh, hand) + ToGo(sh, b, Down(s, x, b)[0]) + hand
  {
    hide Locals, ToGo, Times, Entries;
    var x := s.nodes[b].pred.value;
    PopDownViews(s, x, b);
    PopDownLoad(s, sh, b, Weigh(sh, hand));
    SumSame(sh.order, ForQueue(s), ForQueue(PopDown(s, x, b)));
  }

  // ---- handling it ----

  lemma EntriesChange(nodes: map<Id, Node>, sh: Shape, b: Id, n': Node)
    requires Linked(sh) && Member(sh, b) && b in nodes
    ensures Entries(nodes[b := n'], sh.order) + |nodes[b].store.keys| == Entries(nodes, sh.order) + |n'.store.keys|
  {
    MemberInOrder(sh, b);
    var i :| 0 <= i < |sh.order| && sh.order[i] == b;
    SumBut(sh.order, ForStore(nodes), ForStore(nodes[b := n']), i);
  }

  lemma {:induction false} WithoutCount(keys: seq<Ssn>, k: Ssn)
    ensures |Without(keys, k)| <= |keys|
  {
    if keys != [] {
      WithoutCount(keys[1..], k);
    }
  }

  lemma HandledCount(n: Node, m: Msg)
    requires IsRequest(m)
    ensures |HandleValue(n, m).0.store.keys| <= |n.store.keys| + 1
  {
    if m.Remove? {
      WithoutCount(n.store.keys, m.k);
    }
  }

  /** A request is done with. */
  lemma DoneShrinks(s: Net, sh: Shape, b: Id, m: Msg, hand: nat)
    requires Locals(s, sh) && Member(sh, b) && b in s.nodes && IsRequest(m)
    ensures LeftWith(s.(nodes := s.nodes[b := HandleValue(s.nodes[b], m).0]), sh, hand)
            < LeftWith(s, sh, hand) + ToGo(sh, b, m) + hand
  {
    hide Locals, HandleValue, ToGo, Weigh, Times, Entries;
    var n' := HandleValue(s.nodes[b], m).0;
    var s' := s.(nodes := s.nodes[b := n']);
    LocalsLinked(s, sh);
    HandledCount(s.nodes[b], m);
    EntriesChange(s.nodes, sh, b, n');
    TimesOneMore(Entries(s'.nodes, sh.order), Entries(s.nodes, sh.order), hand);
    KeepsPred(s.nodes[b], m);
    forall a ensures Backlog(s', a) == Backlog(s, a) {}
    QuietLoad(s, s', sh, Weigh(sh, hand));
    SumSame(sh.order, ForQueue(s), ForQueue(s'));
    ToGoBounds(sh, b, m);
  }

  lemma KeepsPred(n: Node, m: Msg)
    requires IsRequest(m)
    ensures HandleValue(n, m).0.pred == n.pred
  {
  }

  /** A message goes on, nearer to its goal. */
  lemma ForwardShrinks(s: Net, sh: Shape, b: Id, m: Msg, m': Msg, hand: nat)
    requires Locals(s, sh) && Member(sh, b) && b in s.nodes && s.nodes[b].succ == Some(sh.nxt[b])
    requires PlainMsg(m') && ToGo(sh, sh.nxt[b], m') < ToGo(sh, b, m)
    ensures LeftWith(PushDown(s, b, sh.nxt[b], [m']), sh, hand) < LeftWith(s, sh, hand) + ToGo(sh, b, m) + hand
  {
    hide Locals, ToGo, Times, Entries;
    var c := sh.nxt[b];
    PushDownViews(s, b, c, [m']);
    ForwardLoad(s, sh, b, m', Weigh(sh, hand));
    SumSame(sh.order, ForQueue(s), ForQueue(PushDown(s, b, c, [m'])));
  }

  // ---- a split ----

  lemma {:induction false} SumBounded<T(!new)>(xs: seq<T>, g: T -> nat, c: nat)
    requires forall i {:trigger xs[i]} :: 0 <= i < |xs| ==> g(xs[i]) <= c
    ensures Sum(xs, g) <= Times(|xs|, c)
  {
    if xs != [] {
      forall i {:trigger xs[1..][i]} | 0 <= i < |xs[1..]| ensures g(xs[1..][i]) <= c {
        assert xs[1..][i] == xs[i + 1];
      }
      SumBounded(xs[1..], g, c);
    }
  }

  lemma LighterReader(s: Net, b: Id, f': Weight, f: Weight)
    requires forall x: Id, m: Msg :: f'(x, m) <= f(x, m)
    ensures ReaderLoad(s, b, f') <= ReaderLoad(s, b, f)
  {
    if b in s.nodes {
      forall x: Id ensures LinkLoad(s, x, b, f') <= LinkLoad(s, x, b, f) {
        SumAtMost(Down(s, x, b), ForReader(f', b), ForReader(f, b));
      }
      SumAtMost(Pipe(s, b), ForLink(s, b, f'), ForLink(s, b, f));
    }
  }

  lemma LighterLoad(s: Net, order: seq<Id>, f': Weight, f: Weight)
    requires forall x: Id, m: Msg :: f'(x, m) <= f(x, m)
    ensures Load(s, order, f') <= Load(s, order, f)
  {
    forall b: Id ensures ReaderLoad(s, b, f') <= ReaderLoad(s, b, f) {
      LighterReader(s, b, f', f);
    }
    SumAtMost(order, ForNet(s, f'), ForNet(s, f));
  }

  /** The hand of a message makes up for any way it has to go in the new ring. */
  lemma LighterWeight(sh: Shape, sh': Shape, hand: nat)
    requires ShapeOk(sh')
    ensures forall x: Id, m: Msg :: Weigh(sh', hand)(x, m) <= Weigh(sh, hand + FULL)(x, m)
  {
    forall x: Id, m: Msg ensures Weigh(sh', hand)(x, m) <= Weigh(sh, hand + FULL)(x, m) {
      ToGoBounds(sh', x, m);
    }
  }

  lemma PlainWeight(ms: seq<Msg>, sh: Shape, j: Id, hand: nat)
    requires ShapeOk(sh) && Plain(ms)
    ensures Sum(ms, ForReader(Weigh(sh, hand), j)) <= Times(|ms|, hand + FULL)
  {
    hide ToGo, ShapeOk, Times;
    var g := ForReader(Weigh(sh, hand), j);
    forall i {:trigger ms[i]} | 0 <= i < |ms| ensures g(ms[i]) <= hand + FULL {
      ToGoBounds(sh, j, ms[i]);
    }
    SumBounded(ms, g, hand + FULL);
  }

  lemma ShippedWeight(n: Node, o: Id, sh': Shape, j: Id, hand: nat)
    requires ShapeOk(sh') && StoreOk(n.store) && n.lo < n.hi && KeysWithin(n.store, n.lo, n.hi)
    ensures Sum(Handover(n, o), ForReader(Weigh(sh', hand), j)) <= 2 + Times(ShippedCount(n), hand + FULL)
  {
    hide ToGo, Times, ShapeOk, ShippedCount, StoreOk, KeysWithin, Inserts;
    HandoverShips(n, o);
    HandoverPlain(n, o);
    PlainWeight(Handover(n, o)[1..], sh', j, hand);
  }

  lemma {:induction false} PartsCount(keys: seq<Ssn>, lo: byte, hi: byte)
    ensures |Inside(keys, lo, hi)| + |Outside(keys, lo, hi)| == |keys|
  {
    if keys != [] {
      PartsCount(keys[1..], lo, hi);
    }
  }

  /** The splitter keeps what it does not ship, and the joiner has nothing yet. */
  lemma SplitStores(s: Net, s': Net, sh: Shape, sh': Shape, w: Id, j: Id)
    requires SplitSetting(s, s', sh, sh', w, j)
    ensures w in s'.nodes && s'.nodes == s.nodes[w := s'.nodes[w]] && j in s'.nodes && s'.nodes[j].store == EMPTY_STORE
    ensures |s'.nodes[w].store.keys| + ShippedCount(s.nodes[w]) == |s.nodes[w].store.keys|
  {
    hide Locals, Handover, IsInsertion, Pipe, Mid;
    OutsiderIsFresh(s, sh, j);
    PartsCount(s.nodes[w].store.keys, s.nodes[w].lo, Mid(s.nodes[w].lo, s.nodes[w].hi));
  }

  lemma NewMemberSum(sh: Shape, sh': Shape, w: Id, j: Id, g: Id -> nat)
    requires IsInsertion(sh, sh', w, j)
    ensures Sum(sh'.order, g) == Sum(sh.order, g) + g(j)
  {
    var i: nat :| i < |sh.order| && sh.order[i] == w && Inserted(sh.order, sh'.order, j, i);
    InsertedSum(sh.order, sh'.order, j, i, g);
  }

  lemma SplitEntries(s: Net, s': Net, sh: Shape, sh': Shape, w: Id, j: Id)
    requires SplitSetting(s, s', sh, sh', w, j)
    ensures Entries(s'.nodes, sh'.order) + ShippedCount(s.nodes[w]) == Entries(s.nodes, sh.order)
  {
    hide Locals, AfterSplit, IsInsertion, ShippedCount;
    LocalsLinked(s, sh);
    SplitStores(s, s', sh, sh', w, j);
    EntriesChange(s.nodes, sh, w, s'.nodes[w]);
    NewMemberSum(sh, sh', w, j, ForStore(s'.nodes));
  }

  lemma SplitQueues(s: Net, s': Net, sh: Shape, sh': Shape, w: Id, j: Id)
    requires SplitSetting(s, s', sh, sh', w, j)
    ensures |Backlog(s', j)| == 1
    ensures forall b {:trigger Backlog(s', b)} :: Member(sh, b) ==> Backlog(s', b) == Backlog(s, b)
  {
    hide Locals, Handover, IsInsertion, KeepLower, Pipe;
    OutsiderIsFresh(s, sh, j);
  }

  lemma SplitWaiting(s: Net, s': Net, sh: Shape, sh': Shape, w: Id, j: Id)
    requires SplitSetting(s, s', sh, sh', w, j)
    ensures Waiting(s', sh'.order) == Waiting(s, sh.order) + 1
  {
    hide Locals, AfterSplit, IsInsertion;
    LocalsLinked(s, sh);
    SplitQueues(s, s', sh, sh', w, j);
    NewMemberSum(sh, sh', w, j, ForQueue(s'));
    forall k {:trigger sh.order[k]} | 0 <= k < |sh.order|
      ensures ForQueue(s)(sh.order[k]) == ForQueue(s')(sh.order[k]) {
      OrderMember(sh, k);
    }
    SumSame(sh.order, ForQueue(s), ForQueue(s'));
  }

  /** A split pays for what it puts on its way with the joiner it serves. */
  lemma SplitShrinks(s: Net, s': Net, sh: Shape, sh': Shape, w: Id, j: Id, hand: nat)
    requires SplitSetting(s, s', sh, sh', w, j) && ShapeOk(sh')
    ensures LeftWith(s', sh', hand) <= LeftWith(s, sh, hand + FULL) + 4
  {
    hide Locals, Handover, Weigh, Times, Entries, Waiting, Load, KeepLower, ShapeOk;
    var n, o := s.nodes[w], sh.nxt[w];
    SplitterStore(s, sh, w);
    SplitLoad(s, s', sh, sh', w, j, Weigh(sh', hand));
    CloseWeight(sh', hand, o);
    LighterWeight(sh, sh', hand);
    LighterLoad(s, sh.order, Weigh(sh', hand), Weigh(sh, hand + FULL));
    ShippedWeight(n, o, sh', j, hand);
    SplitEntries(s, s', sh, sh', w, j);
    SplitWaiting(s, s', sh, sh', w, j);
    TimesSum(Entries(s'.nodes, sh'.order), ShippedCount(n), hand + FULL);
    TimesGrows(Entries(s'.nodes, sh'.order), Entries(s'.nodes, sh'.order), hand, hand + FULL);
    TimesGrows(|s.udp|, |s.udp|, hand + FULL, hand + FULL + FULL);
  }

  lemma CloseWeight(sh: Shape, hand: nat, o: Id)
    ensures Weigh(sh, hand)(o, Close) == 1
  {
  }

  lemma SplitterStore(s: Net, sh: Shape, w: Id)
    requires Locals(s, sh) && Member(sh, w) && w in s.nodes && s.nodes[w].mode == Running
    ensures StoreOk(s.nodes[w].store) && KeysWithin(s.nodes[w].store, s.nodes[w].lo, s.nodes[w].hi)
  {
    hide Tiles, PipeOk;
    assert LocalOk(s, sh, w);
  }

  // ---- accepts, answers and farewells ----

  lemma SameEntries(s: Net, s': Net, sh: Shape)
    requires forall b {:trigger s'.nodes[b]} :: b in s'.nodes ==> b in s.nodes && s'.nodes[b].store == s.nodes[b].store
    requires s'.nodes.Keys == s.nodes.Keys
    ensures Entries(s'.nodes, sh.order) == Entries(s.nodes, sh.order)
  {
    SumSame(sh.order, ForStore(s.nodes), ForStore(s'.nodes));
  }

  lemma QueueChange(s: Net, s': Net, sh: Shape, b: Id)
    requires Linked(sh) && Member(sh, b)
    requires forall a {:trigger Backlog(s', a)} :: a != b ==> Backlog(s', a) == Backlog(s, a)
    ensures Waiting(s', sh.order) + |Backlog(s, b)| == Waiting(s, sh.order) + |Backlog(s', b)|
  {
    MemberInOrder(sh, b);
    var i :| 0 <= i < |sh.order| && sh.order[i] == b;
    SumBut(sh.order, ForQueue(s), ForQueue(s'), i);
  }

  lemma AcceptStores(s: Net, b: Id)
    requires Enabled(s, Accept(b))
    ensures var s' := Do(s, Accept(b));
            forall a {:trigger s'.nodes[a]} :: a in s'.nodes ==> a in s.nodes && s'.nodes[a].store == s.nodes[a].store
  {
  }

  lemma PrivatePipes(s: Net, s': Net, b: Id)
    requires PrivateChange(s, s', b)
    ensures s'.down == s.down
    ensures forall a {:trigger Pipe(s', a)} :: a in s.nodes ==> a in s'.nodes && Pipe(s', a) == Pipe(s, a)
  {
  }

  lemma AcceptShrinks(s: Net, sh: Shape, e: Event, hand: nat)
    requires Locals(s, sh) && e.Accept? && Enabled(s, e)
    ensures LeftWith(Do(s, e), sh, hand) == LeftWith(s, sh, hand) - 1
  {
    hide Locals, Do, Enabled, Weigh, Entries, Times, Waiting, PrivateChange;
    var s' := Do(s, e);
    AcceptViews(s, e.b);
    AcceptStores(s, e.b);
    AcceptIsPrivate(s, sh, e);
    PrivatePipes(s, s', e.b);
    LocalsLinked(s, sh);
    QuietLoad(s, s', sh, Weigh(sh, hand));
    SameEntries(s, s', sh);
    QueueChange(s, s', sh, e.b);
  }

  lemma AnswerShrinks(s: Net, sh: Shape, loc: map<Id, Loc>, e: Event, hand: nat)
    requires Normal(s, sh, loc) && AtAnswer(s, sh, e)
    ensures LeftWith(Do(s, e), sh, hand) == LeftWith(s, sh, hand) - 1
  {
    hide Locals, Do, Enabled, Weigh, Entries, Times, Waiting, AfterAnswer;
    var s' := Do(s, e);
    AnswerSite(s, sh, loc, e);
    var b, c := e.b, sh.nxt[e.b];
    var x := s.nodes[b].pred.value;
    AnswerEffect(s, sh, e);
    AnswerLoad(s, s', sh, b, x, c, Down(s, x, b)[0], Weigh(sh, hand));
    AnswerQueues(s, s', sh, b, x, c, Down(s, x, b)[0]);
    AnswerWeight(sh, hand, b, Down(s, x, b)[0]);
    LocalsLinked(s, sh);
    SameEntries(s, s', sh);
    QueueChange(s, s', sh, c);
  }

  lemma AnswerSite(s: Net, sh: Shape, loc: map<Id, Loc>, e: Event)
    requires Normal(s, sh, loc) && AtAnswer(s, sh, e)
    ensures e.b in s.nodes && e.b in sh.nxt && s.nodes[e.b].pred.Some? && s.nodes[e.b].store == EMPTY_STORE
    ensures Member(sh, sh.nxt[e.b]) && sh.nxt[e.b] in s.nodes && e.b !in Pipe(s, sh.nxt[e.b])
    ensures s.nodes[e.b].pred.value in Pipe(s, e.b) && Down(s, s.nodes[e.b].pred.value, e.b) != []
  {
    hide Tiles, PipeOk, Tokens, KeysWithin, StoreOk;
    assert LocalOk(s, sh, e.b);
    assert Member(sh, sh.nxt[e.b]) && LocalOk(s, sh, sh.nxt[e.b]);
    FirstInPipe(s, e.b);
  }

  lemma AnswerQueues(s: Net, s': Net, sh: Shape, b: Id, x: Id, c: Id, m: Msg)
    requires AfterAnswer(s, s', b, x, c, m) && s.nodes[b].store == EMPTY_STORE
    ensures s'.udp == s.udp && s'.nodes.Keys == s.nodes.Keys && m.JoinResponse?
    ensures |Backlog(s', c)| == |Backlog(s, c)| + 1
    ensures forall a {:trigger Backlog(s', a)} :: a != c ==> Backlog(s', a) == Backlog(s, a)
    ensures forall a {:trigger s'.nodes[a]} :: a in s'.nodes ==> a in s.nodes && s'.nodes[a].store == s.nodes[a].store
  {
  }

  lemma AnswerWeight(sh: Shape, hand: nat, b: Id, m: Msg)
    requires m.JoinResponse?
    ensures Weigh(sh, hand)(b, m) == 2
  {
  }

  lemma CloseShrinks(s: Net, sh: Shape, loc: map<Id, Loc>, e: Event, hand: nat)
    requires Normal(s, sh, loc) && AtClose(s, e)
    ensures LeftWith(Do(s, e), sh, hand) == LeftWith(s, sh, hand) - 1
  {
    hide Locals, Do, Weigh, Entries, Times, AfterClose, Tokens, Streams, LocalOk;
    var s' := Do(s, e);
    var x := s.nodes[e.b].pred.value;
    CloseEffect(s, sh, loc, e);
    CloseStream(s, sh, e);
    CloseLoad(s, s', sh, e.b, x, Weigh(sh, hand));
    CloseWeight(sh, hand, e.b);
    CloseQueues(s, s', e.b, x);
    SameEntries(s, s', sh);
    SumSame(sh.order, ForQueue(s), ForQueue(s'));
  }

  lemma CloseQueues(s: Net, s': Net, b: Id, x: Id)
    requires AfterClose(s, s', b, x)
    ensures s'.udp == s.udp && s'.nodes.Keys == s.nodes.Keys
    ensures forall a {:trigger Backlog(s', a)} :: Backlog(s', a) == Backlog(s, a)
    ensures forall a {:trigger s'.nodes[a]} :: a in s'.nodes ==> a in s.nodes && s'.nodes[a].store == s.nodes[a].store
  {
  }
}
