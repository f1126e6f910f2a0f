/** What each event does to the sum over everything on its way. */
module NetLoad {
  import opened Base
  import opened StoreSpec
  import opened NodeSpec
  import opened Network
  import opened NetViews
  import opened Ring
  import opened NetInv
  import opened NetSteps
  import opened NetJoin
  import opened NetSum

  lemma OrderMember(sh: Shape, i: nat)
    requires Linked(sh) && i < |sh.order|
    ensures Member(sh, sh.order[i])
  {
  }

  lemma MemberInOrder(sh: Shape, b: Id)
    requires Linked(sh) && Member(sh, b)
    ensures b in sh.order && Distinct(sh.order)
  {
  }

  /** The pipe of a member lists every stream once. */
  lemma PipeDistinct(s: Net, sh: Shape, b: Id)
    requires Locals(s, sh) && Member(sh, b)
    ensures b in s.nodes && Distinct(Pipe(s, b))
  {
    hide Tiles, NodeOk, StreamOk;
    assert LocalOk(s, sh, b);
  }

  lemma FirstInPipe(s: Net, b: Id)
    requires b in s.nodes && s.nodes[b].pred.Some?
    ensures s.nodes[b].pred.value in Pipe(s, b) && Pipe(s, b)[0] == s.nodes[b].pred.value
  {
    assert Pipe(s, b)[0] == s.nodes[b].pred.value;
  }

  /** Reading nothing else than before: same pipes, same streams. */
  lemma QuietLoad(s: Net, s': Net, sh: Shape, f: Weight)
    requires Locals(s, sh) && s'.down == s.down
    requires forall b {:trigger Member(sh, b)} :: Member(sh, b) && b in s.nodes ==>
               b in s'.nodes && Pipe(s', b) == Pipe(s, b)
    ensures Load(s', sh.order, f) == Load(s, sh.order, f)
  {
    hide Locals, LocalOk, Linked, Tiles;
    forall i {:trigger sh.order[i]} | 0 <= i < |sh.order| ensures ReadsSame(s, s', sh.order[i]) {
      LocalsLinked(s, sh);
      OrderMember(sh, i);
      MemberIsThere(s, sh, sh.order[i]);
    }
    SameLoad(s, s', sh.order, f);
  }

  lemma LocalsLinked(s: Net, sh: Shape)
    requires Locals(s, sh)
    ensures ShapeOk(sh)
  {
  }

  /** One stream of node b changed, and nothing else that anybody reads. */
  ghost predicate OneStream(s: Net, s': Net, x: Id, b: Id) {
    && s'.nodes.Keys == s.nodes.Keys && b in s.nodes
    && (forall a {:trigger Pipe(s', a)} :: a in s.nodes ==> Pipe(s', a) == Pipe(s, a))
    && (forall y: Id, z: Id {:trigger Down(s', y, z)} :: (y, z) != (x, b) ==> Down(s', y, z) == Down(s, y, z))
  }

  lemma StreamReaders(s: Net, s': Net, sh: Shape, x: Id, b: Id)
    requires Locals(s, sh) && Member(sh, b) && OneStream(s, s', x, b) && x in Pipe(s, b)
    ensures Distinct(sh.order) && b in sh.order && OthersRead(s, s', sh.order, b) && OtherLinks(s, s', x, b)
  {
    hide Locals, LocalOk, Linked, Tiles;
    LocalsLinked(s, sh);
    MemberInOrder(sh, b);
    PipeDistinct(s, sh, b);
    forall i {:trigger sh.order[i]} | 0 <= i < |sh.order| && sh.order[i] != b ensures ReadsSame(s, s', sh.order[i]) {
      OrderMember(sh, i);
      MemberIsThere(s, sh, sh.order[i]);
    }
  }

  /** A message is taken from a stream. */
  lemma TakenLoad(s: Net, s': Net, sh: Shape, x: Id, b: Id, f: Weight)
    requires Locals(s, sh) && Member(sh, b) && OneStream(s, s', x, b) && x in Pipe(s, b)
    requires Down(s, x, b) != [] && Down(s', x, b) == Down(s, x, b)[1..]
    ensures Load(s', sh.order, f) + f(b, Down(s, x, b)[0]) == Load(s, sh.order, f)
  {
    hide Locals, OthersRead, OtherLinks;
    StreamReaders(s, s', sh, x, b);
    PopLoad(s, s', sh.order, x, b, f);
  }

  /** Messages are written to a stream. */
  lemma WrittenLoad(s: Net, s': Net, sh: Shape, x: Id, b: Id, ms: seq<Msg>, f: Weight)
    requires Locals(s, sh) && Member(sh, b) && OneStream(s, s', x, b) && x in Pipe(s, b)
    requires Down(s', x, b) == Down(s, x, b) + ms
    ensures Load(s', sh.order, f) == Load(s, sh.order, f) + Sum(ms, ForReader(f, b))
  {
    hide Locals, OthersRead, OtherLinks;
    StreamReaders(s, s', sh, x, b);
    PushLoad(s, s', sh.order, x, b, ms, f);
  }

  /** A running member reads its predecessor. */
  lemma PopDownLoad(s: Net, sh: Shape, b: Id, f: Weight)
    requires Locals(s, sh) && Member(sh, b) && b in s.nodes && s.nodes[b].pred.Some?
    requires Down(s, s.nodes[b].pred.value, b) != []
    ensures var x := s.nodes[b].pred.value;
            Load(PopDown(s, x, b), sh.order, f) + f(b, Down(s, x, b)[0]) == Load(s, sh.order, f)
  {
    hide Locals, LocalOk;
    var x := s.nodes[b].pred.value;
    FirstInPipe(s, b);
    PopDownViews(s, x, b);
    TakenLoad(s, PopDown(s, x, b), sh, x, b, f);
  }

  /** A member writes to its successor. */
  lemma ForwardLoad(s: Net, sh: Shape, b: Id, m: Msg, f: Weight)
    requires Locals(s, sh) && Member(sh, b) && b in s.nodes && s.nodes[b].succ == Some(sh.nxt[b])
    ensures Load(PushDown(s, b, sh.nxt[b], [m]), sh.order, f) == Load(s, sh.order, f) + f(sh.nxt[b], m)
  {
    hide Locals, LocalOk;
    var c := sh.nxt[b];
    SuccessorReads(s, sh, b);
    PushDownViews(s, b, c, [m]);
    WrittenLoad(s, PushDown(s, b, c, [m]), sh, b, c, [m], f);
    SumOne(m, ForReader(f, c));
  }

  lemma SuccessorReads(s: Net, sh: Shape, b: Id)
    requires Locals(s, sh) && Member(sh, b) && b in s.nodes && s.nodes[b].succ == Some(sh.nxt[b])
    ensures Member(sh, sh.nxt[b]) && sh.nxt[b] in s.nodes && b in Pipe(s, sh.nxt[b])
  {
    hide Tiles, NodeOk, StreamOk;
    var c := sh.nxt[b];
    assert Member(sh, c) && sh.prv[c] == b && LocalOk(s, sh, c);
    assert LinkFrom(s, b, c) == Some(b);
  }

  // ---- the events of a join ----

  /** Node b connects to c, which reads nothing new from it yet, and has taken a message from x. */
  lemma AnswerLoad(s: Net, s': Net, sh: Shape, b: Id, x: Id, c: Id, m: Msg, f: Weight)
    requires Locals(s, sh) && Member(sh, b) && Member(sh, c) && b != c
    requires b in s.nodes && c in s.nodes && x in Pipe(s, b)
    requires AfterAnswer(s, s', b, x, c, m) && b !in Pipe(s, c)
    ensures Load(s', sh.order, f) + f(b, m) == Load(s, sh.order, f)
  {
    hide Locals, AfterAnswer, PopDown, OthersRead;
    AnswerReads(s, s', b, x, c, m);
    var s1 := PopDown(s, x, b);
    AnswerViews(s, s', sh, b, x, c, m);
    TakenLoad(s, s1, sh, x, b, f);
    LocalsLinked(s, sh);
    MemberInOrder(sh, c);
    ConnectedReader(s1, s', c, b, f);
    OneReader(s1, s', sh.order, c, f);
  }

  lemma AnswerReads(s: Net, s': Net, b: Id, x: Id, c: Id, m: Msg)
    requires AfterAnswer(s, s', b, x, c, m)
    ensures Down(s, x, b) != [] && m == Down(s, x, b)[0]
  {
  }

  lemma AnswerViews(s: Net, s': Net, sh: Shape, b: Id, x: Id, c: Id, m: Msg)
    requires Locals(s, sh) && b in s.nodes && c in s.nodes && b != c
    requires AfterAnswer(s, s', b, x, c, m) && b !in Pipe(s, c) && Down(s, x, b) != []
    ensures var s1 := PopDown(s, x, b);
            && OneStream(s, s1, x, b) && Down(s1, x, b) == Down(s, x, b)[1..] && OthersRead(s1, s', sh.order, c)
            && c in s1.nodes && c in s'.nodes && Pipe(s', c) == Pipe(s1, c) + [b] && Down(s', b, c) == []
            && (forall y: Id {:trigger Down(s', y, c)} :: y != b ==> Down(s', y, c) == Down(s1, y, c))
            && b !in Pipe(s1, c)
  {
    hide Locals, PopDown, AfterAnswer;
    PopDownViews(s, x, b);
    var s1 := PopDown(s, x, b);
    AnsweredReader(s, s1, s', b, x, c, m);
    forall i {:trigger sh.order[i]} | 0 <= i < |sh.order| && sh.order[i] != c ensures ReadsSame(s1, s', sh.order[i]) {
      LocalsLinked(s, sh);
      OrderMember(sh, i);
      MemberIsThere(s, sh, sh.order[i]);
      AnsweredOther(s, s1, s', b, x, c, m, sh.order[i]);
    }
  }

  lemma AnsweredReader(s: Net, s1: Net, s': Net, b: Id, x: Id, c: Id, m: Msg)
    requires AfterAnswer(s, s', b, x, c, m) && c in s.nodes && b != c && s1 == s.(down := s1.down)
    requires forall y: Id, z: Id {:trigger Down(s1, y, z)} ::
               Down(s1, y, z) == if (y, z) == (x, b) then Down(s, x, b)[1..] else Down(s, y, z)
    ensures c in s'.nodes && Pipe(s', c) == Pipe(s1, c) + [b] && Down(s', b, c) == []
    ensures forall y: Id {:trigger Down(s', y, c)} :: y != b ==> Down(s', y, c) == Down(s1, y, c)
  {
  }

  lemma AnsweredOther(s: Net, s1: Net, s': Net, b: Id, x: Id, c: Id, m: Msg, a: Id)
    requires AfterAnswer(s, s', b, x, c, m) && a in s.nodes && a != c && s1 == s.(down := s1.down)
    requires forall y: Id, z: Id {:trigger Down(s1, y, z)} ::
               Down(s1, y, z) == if (y, z) == (x, b) then Down(s, x, b)[1..] else Down(s, y, z)
    ensures ReadsSame(s1, s', a)
  {
  }

  lemma ConnectedReader(s: Net, s': Net, c: Id, b: Id, f: Weight)
    requires c in s.nodes && c in s'.nodes && Pipe(s', c) == Pipe(s, c) + [b] && Down(s', b, c) == []
    requires forall y: Id {:trigger Down(s', y, c)} :: y != b ==> Down(s', y, c) == Down(s, y, c)
    requires b !in Pipe(s, c)
    ensures ReaderLoad(s', c, f) == ReaderLoad(s, c, f)
  {
    SumConcat(Pipe(s, c), [b], ForLink(s', c, f));
    SumOne(b, ForLink(s', c, f));
    forall i {:trigger Pipe(s, c)[i]} | 0 <= i < |Pipe(s, c)|
      ensures LinkLoad(s', Pipe(s, c)[i], c, f) == LinkLoad(s, Pipe(s, c)[i], c, f)
    {
      assert Down(s', Pipe(s, c)[i], c) == Down(s, Pipe(s, c)[i], c);
    }
    SumSame(Pipe(s, c), ForLink(s, c, f), ForLink(s', c, f));
  }

  /** Node b is done with its first stream. */
  lemma CloseLoad(s: Net, s': Net, sh: Shape, b: Id, x: Id, f: Weight)
    requires Locals(s, sh) && Member(sh, b) && b in s.nodes && s.nodes[b].pred == Some(x)
    requires AfterClose(s, s', b, x) && Down(s, x, b) == [Close]
    ensures Load(s', sh.order, f) + f(b, Close) == Load(s, sh.order, f)
  {
    hide Locals;
    LocalsLinked(s, sh);
    MemberInOrder(sh, b);
    PipeDistinct(s, sh, b);
    ClosedReader(s, s', b, x, f);
    ClosedOthers(s, s', sh, b, x);
    OneReader(s, s', sh.order, b, f);
  }

  lemma ClosedOthers(s: Net, s': Net, sh: Shape, b: Id, x: Id)
    requires Locals(s, sh) && AfterClose(s, s', b, x)
    ensures OthersRead(s, s', sh.order, b)
  {
    hide LocalOk, Tiles;
    forall i {:trigger sh.order[i]} | 0 <= i < |sh.order| && sh.order[i] != b ensures ReadsSame(s, s', sh.order[i]) {
      MemberIsThere(s, sh, sh.order[i]);
    }
  }

  lemma ClosedReader(s: Net, s': Net, b: Id, x: Id, f: Weight)
    requires b in s.nodes && s.nodes[b].pred == Some(x) && Distinct(Pipe(s, b))
    requires AfterClose(s, s', b, x) && Down(s, x, b) == [Close]
    ensures ReaderLoad(s', b, f) + f(b, Close) == ReaderLoad(s, b, f)
  {
    var p := Pipe(s, b);
    assert p[0] == x && Pipe(s', b) == p[1..];
    SumOne(Close, ForReader(f, b));
    forall i {:trigger p[1..][i]} | 0 <= i < |p[1..]|
      ensures LinkLoad(s', p[1..][i], b, f) == LinkLoad(s, p[1..][i], b, f) {
      assert p[1..][i] == p[i + 1] && p[i + 1] != p[0];
      assert Down(s', p[i + 1], b) == Down(s, p[i + 1], b);
    }
    SumSame(p[1..], ForLink(s, b, f), ForLink(s', b, f));
  }

  /** Node w splits for j in front of o: j will read the answer and the entries, o the farewell. */
  lemma SplitLoad(s: Net, s': Net, sh: Shape, sh': Shape, w: Id, j: Id, f: Weight)
    requires SplitSetting(s, s', sh, sh', w, j)
    ensures var o := sh.nxt[w];
            Load(s', sh'.order, f) == Load(s, sh.order, f) + Sum(Handover(s.nodes[w], o), ForReader(f, j))
                                      + (if o != w then f(o, Close) else 0)
  {
    hide Locals, AfterSplit, IsInsertion;
    var o := sh.nxt[w];
    JoinerReads(s, s', sh, sh', w, j, f);
    OrderSplit(s', sh, sh', w, j, f);
    OldMembersLoad(s, s', sh, sh', w, j, f);
  }

  lemma JoinerReads(s: Net, s': Net, sh: Shape, sh': Shape, w: Id, j: Id, f: Weight)
    requires SplitSetting(s, s', sh, sh', w, j)
    ensures ReaderLoad(s', j, f) == Sum(Handover(s.nodes[w], sh.nxt[w]), ForReader(f, j))
  {
    SplitPipes(s, s', sh, sh', w, j);
    hide Locals, IsInsertion, Handover, KeepLower;
    SumOne(w, ForLink(s', j, f));
  }

  lemma OrderSplit(s: Net, sh: Shape, sh': Shape, w: Id, j: Id, f: Weight)
    requires IsInsertion(sh, sh', w, j)
    ensures Load(s, sh'.order, f) == Load(s, sh.order, f) + ReaderLoad(s, j, f)
  {
    var i: nat :| i < |sh.order| && sh.order[i] == w && Inserted(sh.order, sh'.order, j, i);
    InsertedSum(sh.order, sh'.order, j, i, ForNet(s, f));
  }

  lemma InsertedSum(order: seq<Id>, order': seq<Id>, j: Id, i: nat, g: Id -> nat)
    requires Inserted(order, order', j, i)
    ensures Sum(order', g) == Sum(order, g) + g(j)
  {
    var a, b := order[..i + 1], order[i + 1..];
    assert order == a + b && order' == a + ([j] + b);
    SumConcat(a, b, g);
    SumConcat(a, [j] + b, g);
    SumConcat([j], b, g);
    SumOne(j, g);
  }

  lemma OldReaders(s: Net, s': Net, sh: Shape, sh': Shape, w: Id, j: Id, a: Id)
    requires SplitSetting(s, s', sh, sh', w, j) && Member(sh, a)
    ensures a in s.nodes && a in s'.nodes && Pipe(s', a) == Pipe(s, a)
    ensures forall x: Id {:trigger Down(s', x, a)} ::
              Down(s', x, a) == if x == w && a == sh.nxt[w] && a != w then Down(s, w, a) + [Close] else Down(s, x, a)
  {
    hide Locals, IsInsertion, Handover, KeepLower, Pipe, Backlog;
    SplitPipes(s, s', sh, sh', w, j);
    MemberIsThere(s, sh, a);
  }

  lemma OldMembersLoad(s: Net, s': Net, sh: Shape, sh': Shape, w: Id, j: Id, f: Weight)
    requires SplitSetting(s, s', sh, sh', w, j)
    ensures var o := sh.nxt[w]; Load(s', sh.order, f) == Load(s, sh.order, f) + (if o != w then f(o, Close) else 0)
  {
    hide Locals, IsInsertion, AfterSplit;
    var o := sh.nxt[w];
    SplitPipes(s, s', sh, sh', w, j);
    LocalsLinked(s, sh);
    forall i {:trigger sh.order[i]} | 0 <= i < |sh.order| && (sh.order[i] != o || o == w)
      ensures ReadsSame(s, s', sh.order[i])
    {
      OrderMember(sh, i);
      OldReaders(s, s', sh, sh', w, j, sh.order[i]);
    }
    if o == w {
      SameLoad(s, s', sh.order, f);
    } else {
      MemberInOrder(sh, o);
      PipeDistinct(s, sh, o);
      OldReaders(s, s', sh, sh', w, j, o);
      PushLoad(s, s', sh.order, w, o, [Close], f);
      SumOne(Close, ForReader(f, o));
    }
  }
}
