/** The events of a join that change the ring keep the invariant: the split, the joiner's answer,
    and the old neighbour's NET_CLOSE_CONNECTION. */
module NetJoin {
  import opened Base
  import opened Ranges
  import opened StoreSpec
  import opened NodeSpec
  import opened Network
  import opened NetViews
  import opened Ring
  import opened NetInv
  import opened NetSteps

  // ---- the split ----

  /** The node is alone, or the token names it. */
  ghost predicate Splits(s: Net, b: Id, m: Msg) {
    && b in s.nodes && s.nodes[b].mode == Running && m.Join?
    && ((s.nodes[b].pred.None? && s.nodes[b].succ.None?)
        || (s.nodes[b].pred.Some? && s.nodes[b].succ.Some? && m.maxId == b))
  }

  /** What s' shows after w split for j, whose successor becomes o. */
  ghost predicate AfterSplit(s: Net, s': Net, w: Id, j: Id, o: Id) {
    && w in s.nodes && j in s.nodes && s'.nodes.Keys == s.nodes.Keys
    && (forall a :: a in s.nodes && a != w ==> s'.nodes[a] == s.nodes[a])
    && (forall a {:trigger Backlog(s', a)} :: Backlog(s', a) == if a == j then Backlog(s, j) + [w] else Backlog(s, a))
    && (forall x: Id, y: Id {:trigger Down(s', x, y)} ::
          Down(s', x, y) == if (x, y) == (w, j) then Handover(s.nodes[w], o)
                            else if (x, y) == (w, o) && o != w then Down(s, w, o) + [Close]
                            else Down(s, x, y))
    && (forall x: Id, y: Id {:trigger Up(s', x, y)} :: Up(s, x, y) == [] ==> Up(s', x, y) == [])
    && s'.udp == s.udp && s'.leaving == s.leaving
    && var n := s.nodes[w];
       s'.nodes[w] == KeepLower(n).(succ := Some(j), succAddr := j, mode := if o == w then AwaitPred else Running)
  }

  /** A new connection from w to j whose stream starts with h. */
  function Wire(s: Net, w: Id, j: Id, h: seq<Msg>): Net {
    PushDown(Connect(s, w, j), w, j, h)
  }

  lemma WireViews(s: Net, w: Id, j: Id, h: seq<Msg>)
    ensures var s' := Wire(s, w, j, h);
            && s'.nodes == s.nodes && s'.udp == s.udp && s'.leaving == s.leaving
            && (forall a {:trigger Backlog(s', a)} ::
                  Backlog(s', a) == if a == j then Backlog(s, j) + [w] else Backlog(s, a))
            && (forall x: Id, y: Id {:trigger Down(s', x, y)} ::
                  Down(s', x, y) == if (x, y) == (w, j) then h else Down(s, x, y))
            && (forall x: Id, y: Id {:trigger Up(s', x, y)} :: Up(s, x, y) == [] ==> Up(s', x, y) == [])
  {
    assert [] + h == h;
  }

  lemma AloneSplitIsWire(s: Net, w: Id, m: Msg)
    requires Splits(s, w, m) && s.nodes[w].pred.None? && s.nodes[w].succ.None?
    ensures !React(s, w, m).1.fault
    ensures Receive(s, w, m) == Wire(s, w, m.src, Handover(s.nodes[w], w)).(
              nodes := s.nodes[w := KeepLower(s.nodes[w]).(succ := Some(m.src), succAddr := m.src, mode := AwaitPred)])
  {
  }

  lemma NamedSplitIsWire(s: Net, w: Id, m: Msg)
    requires Splits(s, w, m) && s.nodes[w].pred.Some?
    ensures !React(s, w, m).1.fault
    ensures Receive(s, w, m) == Wire(PushDown(s, w, s.nodes[w].succ.value, [Close]), w, m.src,
                                     Handover(s.nodes[w], s.nodes[w].succAddr)).(
              nodes := s.nodes[w := KeepLower(s.nodes[w]).(succ := Some(m.src), succAddr := m.src)])
  {
  }

  lemma SplitEffectAt(s: Net, w: Id, m: Msg, o: Id)
    requires Splits(s, w, m) && m.src in s.nodes && m.src != w && m.src != o
    requires if o == w then s.nodes[w].pred.None? && s.nodes[w].succ.None?
             else s.nodes[w].succ == Some(o) && s.nodes[w].succAddr == o && s.nodes[w].pred.Some?
    ensures AfterSplit(s, Receive(s, w, m), w, m.src, o) && !React(s, w, m).1.fault
  {
    hide Wire, Receive, React, Handover;
    var h := Handover(s.nodes[w], o);
    if o == w {
      AloneSplitIsWire(s, w, m);
      WireViews(s, w, m.src, h);
      NodesViews(Wire(s, w, m.src, h), Receive(s, w, m));
    } else {
      NamedSplitIsWire(s, w, m);
      var s1 := PushDown(s, w, o, [Close]);
      forall x: Id, y: Id
        ensures Down(s1, x, y) == if (x, y) == (w, o) then Down(s, w, o) + [Close] else Down(s, x, y) {}
      forall x: Id, y: Id ensures Up(s1, x, y) == Up(s, x, y) {}
      forall a ensures Backlog(s1, a) == Backlog(s, a) {}
      WireViews(s1, w, m.src, h);
      NodesViews(Wire(s1, w, m.src, h), Receive(s, w, m));
    }
  }

  lemma SplitEffect(s: Net, sh: Shape, loc: map<Id, Loc>, w: Id, m: Msg)
    requires Normal(s, sh, loc) && Splits(s, w, m) && InHand(s, sh, loc, m)
    ensures Member(sh, w) && AfterSplit(s, Receive(s, w, m), w, m.src, sh.nxt[w]) && !React(s, w, m).1.fault
  {
    MemberFields(s, sh, loc, w);
    assert Outsider(s, sh, m.src);
    assert m.src != w && m.src != sh.nxt[w] by { assert Member(sh, sh.nxt[w]); }
    SplitEffectAt(s, w, m, sh.nxt[w]);
  }

  ghost predicate SplitSetting(s: Net, s': Net, sh: Shape, sh': Shape, w: Id, j: Id) {
    && Locals(s, sh) && Member(sh, w) && w in s.nodes && s.nodes[w].mode == Running
    && Outsider(s, sh, j) && IsInsertion(sh, sh', w, j)
    && AfterSplit(s, s', w, j, sh.nxt[w])
    && s.nodes[w].lo < s.nodes[w].hi
  }

  lemma HandoverPlain(n: Node, next: Id)
    ensures Plain(Handover(n, next)[1..])
    ensures forall i :: 0 <= i < |Handover(n, next)| ==> !Handover(n, next)[i].Join?
  {
    var h := Handover(n, next);
    var ins := Inserts(Outside(n.store.keys, n.lo, Mid(n.lo, n.hi)), n.store.vals);
    InsertsMembers(Outside(n.store.keys, n.lo, Mid(n.lo, n.hi)), n.store.vals);
    assert h[1..] == ins;
    forall i | 0 <= i < |ins| ensures ins[i].Insert? { assert ins[i] in ins; }
  }

  lemma JoinerPipe(s: Net, s': Net, w: Id, j: Id, o: Id)
    requires AfterSplit(s, s', w, j, o) && Fresh(s, j) && w != j
    ensures j in s'.nodes && s'.nodes[j] == s.nodes[j] && Pipe(s', j) == [w] && LinkFrom(s', w, j) == Some(w)
    ensures Down(s', w, j) == Handover(s.nodes[w], o) && PipeOk(s', j, [w], true, Some(w))
  {
    hide Inserts, KeepLower;
    HandoverPlain(s.nodes[w], o);
    assert Backlog(s', j) == [] + [w];
  }

  lemma JoinerShape(sh: Shape, sh': Shape, w: Id, j: Id)
    requires ShapeOk(sh) && Member(sh, w) && IsInsertion(sh, sh', w, j) && !Member(sh, j)
    ensures sh.nxt[w] != j && w != j && j in sh'.nxt && j in sh'.prv && j in sh'.lo && j in sh'.hi
    ensures sh'.prv[j] == w && sh'.nxt[j] == sh.nxt[w]
  {
    hide Tiles;
    assert Member(sh, sh.nxt[w]);
  }

  /** The answer a joiner finds is for its place in the ring. */
  lemma JoinersAnswer(n: Node, sh: Shape, sh': Shape, w: Id, j: Id, o: Id)
    requires Member(sh, w) && w in sh.lo && w in sh.hi && IsInsertion(sh, sh', w, j) && j in sh'.lo && j in sh'.hi
    requires n.lo == sh.lo[w] && n.hi == sh.hi[w]
    ensures var m := Handover(n, o)[0];
            m == JoinResponse(o, AfterMid(n.lo, n.hi), n.hi) && m.lo == sh'.lo[j] && m.hi == sh'.hi[j]
  {
    hide Inserts;
  }

  lemma SettingHas(s: Net, s': Net, sh: Shape, sh': Shape, w: Id, j: Id)
    requires SplitSetting(s, s', sh, sh', w, j)
    ensures ShapeOk(sh) && Fresh(s, j) && w in sh.lo && w in sh.hi && sh.nxt[w] in s.nodes
    ensures s.nodes[w].lo == sh.lo[w] && s.nodes[w].hi == sh.hi[w] && Member(sh, sh.nxt[w])
  {
    hide PipeOk, Tiles, AfterSplit;
    MemberIsLocal(s, sh, w);
    MemberIsLocal(s, sh, sh.nxt[w]);
    OutsiderIsFresh(s, sh, j);
  }

  lemma JoinerLocal(s': Net, sh': Shape, w: Id, j: Id, o: Id, n: Node)
    requires Member(sh', j) && j in sh'.prv && j in sh'.lo && j in sh'.hi && j != o && w != j
    requires sh'.prv[j] == w && sh'.nxt[j] == o && j in s'.nodes && s'.nodes[j].mode == Joining
    requires s'.nodes[j].pred.None? && s'.nodes[j].succ.None? && s'.nodes[j].store == EMPTY_STORE
    requires Pipe(s', j) == [w] && PipeOk(s', j, [w], true, Some(w)) && LinkFrom(s', w, j) == Some(w)
    requires Down(s', w, j) == Handover(n, o)
    requires var m := Handover(n, o)[0]; m.JoinResponse? && m.next == o && m.lo == sh'.lo[j] && m.hi == sh'.hi[j]
    ensures LocalOk(s', sh', j)
  {
    hide PipeOk, Inserts;
  }

  lemma SplitJoiner(s: Net, s': Net, sh: Shape, sh': Shape, w: Id, j: Id)
    requires SplitSetting(s, s', sh, sh', w, j)
    ensures LocalOk(s', sh', j)
  {
    hide Locals, LocalOk, PipeOk, Tiles, AfterSplit, Handover, KeysWithin;
    var o := sh.nxt[w];
    SettingHas(s, s', sh, sh', w, j);
    JoinerShape(sh, sh', w, j);
    JoinerPipe(s, s', w, j, o);
    JoinersAnswer(s.nodes[w], sh, sh', w, j, o);
    JoinerLocal(s', sh', w, j, o, s.nodes[w]);
  }

  lemma KeepLowerOk(n: Node)
    requires StoreOk(n.store) && n.lo < n.hi
    ensures StoreOk(KeepLower(n).store) && KeysWithin(KeepLower(n).store, n.lo, Mid(n.lo, n.hi))
  {
    InsideMembers(n.store.keys, n.lo, Mid(n.lo, n.hi));
  }

  lemma AloneWinnerPipe(s: Net, s': Net, sh: Shape, sh': Shape, w: Id, j: Id)
    requires SplitSetting(s, s', sh, sh', w, j) && sh.nxt[w] == w && LocalOk(s, sh, w)
    ensures Pipe(s', w) == Pipe(s, w) && w in sh'.prv
    ensures PipeOk(s', w, Pipe(s, w), false, LinkFrom(s', sh'.prv[w], w))
  {
    hide Tiles, Handover, Keep, Mid, StoreOk, KeysWithin, StreamOk;
    assert Fresh(s, j) && sh'.prv[w] == j;
  }

  lemma NamedWinnerPipe(s: Net, s': Net, sh: Shape, sh': Shape, w: Id, j: Id)
    requires SplitSetting(s, s', sh, sh', w, j) && sh.nxt[w] != w && LocalOk(s, sh, w)
    ensures Pipe(s', w) == Pipe(s, w) && w in sh'.prv
    ensures PipeOk(s', w, Pipe(s, w), false, LinkFrom(s', sh'.prv[w], w))
  {
    hide Tiles, Handover, Keep, Mid, StoreOk, KeysWithin, PipeOk;
    assert sh.prv[w] != w by { assert sh.nxt[sh.prv[w]] == w; }
    assert sh'.prv[w] == sh.prv[w];
    assert LinkFrom(s', sh.prv[w], w) == LinkFrom(s, sh.prv[w], w);
    forall x: Id ensures Down(s', x, w) == Down(s, x, w) {}
    PipeFrame(s, s', w, Pipe(s, w), false, LinkFrom(s, sh.prv[w], w));
  }

  lemma SplitWinnerPipe(s: Net, s': Net, sh: Shape, sh': Shape, w: Id, j: Id)
    requires SplitSetting(s, s', sh, sh', w, j)
    ensures Pipe(s', w) == Pipe(s, w) && w in sh'.prv
    ensures PipeOk(s', w, Pipe(s, w), false, LinkFrom(s', sh'.prv[w], w))
  {
    hide Tiles, Handover, KeepLower, StoreOk, KeysWithin, StreamOk;
    assert LocalOk(s, sh, w);
    if sh.nxt[w] == w {
      AloneWinnerPipe(s, s', sh, sh', w, j);
    } else {
      NamedWinnerPipe(s, s', sh, sh', w, j);
    }
  }

  lemma SplitWinnerNode(n: Node, w: Id, j: Id, o: Id, lo: int, hi: int)
    requires NodeOk(n, w, o, lo, hi) && n.mode == Running && n.lo < n.hi && j != w
    ensures NodeOk(KeepLower(n).(succ := Some(j), succAddr := j, mode := if o == w then AwaitPred else Running),
                   w, j, lo, Mid(n.lo, n.hi))
  {
    KeepLowerOk(n);
  }

  lemma SplitWinnerFields(s: Net, s': Net, sh: Shape, sh': Shape, w: Id, j: Id)
    requires SplitSetting(s, s', sh, sh', w, j)
    ensures w in sh'.lo && w in sh'.hi && sh'.nxt[w] == j && InRing(s'.nodes[w])
    ensures NodeOk(s'.nodes[w], w, sh'.nxt[w], sh'.lo[w], sh'.hi[w])
  {
    assert LocalOk(s, sh, w);
    SplitWinnerNode(s.nodes[w], w, j, sh.nxt[w], sh.lo[w], sh.hi[w]);
  }

  lemma SplitWinner(s: Net, s': Net, sh: Shape, sh': Shape, w: Id, j: Id)
    requires SplitSetting(s, s', sh, sh', w, j)
    ensures LocalOk(s', sh', w)
  {
    SplitWinnerFields(s, s', sh, sh', w, j);
    SplitWinnerPipe(s, s', sh, sh', w, j);
  }

  lemma SplitOldSuccessor(s: Net, s': Net, sh: Shape, sh': Shape, w: Id, j: Id)
    requires SplitSetting(s, s', sh, sh', w, j) && sh.nxt[w] != w
    ensures LocalOk(s', sh', sh.nxt[w])
  {
    hide Tiles, Handover, KeepLower, StreamOk, StoreOk, KeysWithin;
    var o := sh.nxt[w];
    assert Member(sh, o);
    assert sh.prv[o] == w;
    assert LocalOk(s, sh, o) && LocalOk(s, sh, w);
    assert sh'.prv[o] == j && sh'.nxt[o] == sh.nxt[o] && sh'.lo[o] == sh.lo[o] && sh'.hi[o] == sh.hi[o];
    assert LinkFrom(s, w, o) == Some(w) && LinkFrom(s', j, o) == None;
    assert Pipe(s', o) == Pipe(s, o);
    PipeFinish(s, s', o, Pipe(s, o), !InRing(s.nodes[o]), w);
  }

  lemma SplitOthers(s: Net, s': Net, sh: Shape, sh': Shape, w: Id, j: Id, a: Id)
    requires SplitSetting(s, s', sh, sh', w, j) && Member(sh, a) && a != w && a != sh.nxt[w]
    ensures LocalOk(s', sh', a)
  {
    hide PipeOk, Tiles, Inserted;
    var o := sh.nxt[w];
    assert LocalOk(s, sh, a);
    assert Member(sh, o) && sh.prv[o] == w;
    assert sh.prv[a] != w by { assert sh.nxt[sh.prv[a]] == a; }
    assert sh'.prv[a] == sh.prv[a] && sh'.nxt[a] == sh.nxt[a];
    assert LinkFrom(s', sh.prv[a], a) == LinkFrom(s, sh.prv[a], a);
    forall x: Id ensures Down(s', x, a) == Down(s, x, a) {}
    LocalFrame(s, s', sh, a);
  }

  lemma SplitLocals(s: Net, s': Net, sh: Shape, sh': Shape, w: Id, j: Id)
    requires SplitSetting(s, s', sh, sh', w, j)
    ensures Locals(s', sh')
  {
    assert LocalOk(s, sh, w);
    InsertionOk(sh, sh', w, j);
    forall a {:trigger Member(sh', a)} | Member(sh', a) ensures LocalOk(s', sh', a) {
      if a == j {
        SplitJoiner(s, s', sh, sh', w, j);
      } else if a == w {
        SplitWinner(s, s', sh, sh', w, j);
      } else if a == sh.nxt[w] {
        SplitOldSuccessor(s, s', sh, sh', w, j);
      } else {
        SplitOthers(s, s', sh, sh', w, j, a);
      }
    }
    forall k {:trigger Outsider(s', sh', k)} | Outsider(s', sh', k) ensures Fresh(s', k) {
      assert Outsider(s, sh, k);
    }
  }

  lemma SplitPipes(s: Net, s': Net, sh: Shape, sh': Shape, w: Id, j: Id)
    requires SplitSetting(s, s', sh, sh', w, j)
    ensures forall b {:trigger Pipe(s', b)} :: b in s.nodes ==> Pipe(s', b) == if b == j then [w] else Pipe(s, b)
    ensures sh.nxt[w] != w ==> Member(sh, sh.nxt[w]) && sh.nxt[w] in s.nodes && w in Pipe(s, sh.nxt[w])
  {
    var o := sh.nxt[w];
    assert LocalOk(s, sh, w) && Fresh(s, j);
    if o != w {
      assert Member(sh, o) && sh.prv[o] == w && LocalOk(s, sh, o);
      assert LinkFrom(s, w, o) == Some(w);
    }
  }

  lemma SplitStreams(s: Net, s': Net, sh: Shape, sh': Shape, w: Id, j: Id)
    requires Streams(s, sh) && Member(sh, w) && AfterSplit(s, s', w, j, sh.nxt[w])
    requires forall x {:trigger Member(sh', x)} :: Member(sh', x) <==> Member(sh, x) || x == j
    requires forall b {:trigger Pipe(s', b)} :: b in s.nodes ==> Pipe(s', b) == if b == j then [w] else Pipe(s, b)
    requires sh.nxt[w] != w ==> Member(sh, sh.nxt[w]) && sh.nxt[w] in s.nodes && w in Pipe(s, sh.nxt[w])
    requires !Member(sh, j) && InRing(s.nodes[w])
    ensures Streams(s', sh')
  {
    var o := sh.nxt[w];
    forall b: Id, x: Id {:trigger Member(sh', b), x in Pipe(s', b)}
      | Member(sh', b) && b in s'.nodes && x in Pipe(s', b)
      ensures x in s'.nodes && InRing(s'.nodes[x])
    {
      if b != j {
        assert Member(sh, b) && x in Pipe(s, b);
      }
    }
    forall x: Id, y: Id {:trigger Down(s', x, y)} | Down(s', x, y) != []
      ensures Member(sh', y) && y in s'.nodes && x in Pipe(s', y)
    {
      if (x, y) == (w, j) {
        assert Pipe(s', j) == [w];
      } else if (x, y) == (w, o) && o != w {
        assert Pipe(s', o) == Pipe(s, o);
      } else {
        assert Down(s, x, y) != [];
        assert Member(sh, y);
        assert Pipe(s', y) == Pipe(s, y);
      }
    }
    forall x: Id, y: Id {:trigger Up(s', x, y)} ensures Up(s', x, y) == [] {
      assert Up(s, x, y) == [];
    }
    forall p | p in s'.udp
      ensures Member(sh', p.dest) && p.dest in s'.nodes && InRing(s'.nodes[p.dest]) && PlainMsg(p.m)
    {
      assert Member(sh, p.dest);
    }
  }

  lemma SplitTokensOn(s: Net, s': Net, loc: map<Id, Loc>, w: Id, j: Id, o: Id, x: Id, y: Id)
    requires AfterSplit(s, s', w, j, o) && TokensOn(Down(s, x, y), OnLink(x, y), loc)
    ensures TokensOn(Down(s', x, y), OnLink(x, y), loc)
  {
    hide Handover, KeepLower;
    HandoverPlain(s.nodes[w], o);
  }

  lemma SplitTokens(s: Net, s': Net, sh: Shape, sh': Shape, loc: map<Id, Loc>, w: Id, j: Id)
    requires SplitSetting(s, s', sh, sh', w, j) && Tokens(s, sh, loc) && j !in loc
    ensures Tokens(s', sh', loc)
  {
    hide Locals, TokensOn, KeepLower, Handover;
    forall x: Id, y: Id {:trigger Down(s', x, y)} ensures TokensOn(Down(s', x, y), OnLink(x, y), loc) {
      assert TokensOn(Down(s, x, y), OnLink(x, y), loc);
      SplitTokensOn(s, s', loc, w, j, sh.nxt[w], x, y);
    }
    forall k | k in loc ensures Outsider(s', sh', k) {
      assert Outsider(s, sh, k);
    }
  }

  lemma SplitOk(s: Net, sh: Shape, loc: map<Id, Loc>, w: Id, m: Msg) returns (sh': Shape)
    requires Normal(s, sh, loc) && Splits(s, w, m) && InHand(s, sh, loc, m) && s.nodes[w].lo < s.nodes[w].hi
    ensures Member(sh, w) && IsInsertion(sh, sh', w, m.src)
    ensures Normal(Receive(s, w, m), sh', loc)
  {
    SplitEffect(s, sh, loc, w, m);
    var s' := Receive(s, w, m);
    assert Outsider(s, sh, m.src);
    sh' := Insertion(sh, w, m.src);
    SplitLocals(s, s', sh, sh', w, m.src);
    SplitPipes(s, s', sh, sh', w, m.src);
    SplitStreams(s, s', sh, sh', w, m.src);
    SplitTokens(s, s', sh, sh', loc, w, m.src);
  }

  // ---- the token passes ----

  lemma PassReaction(s: Net, b: Id, m: Msg)
    requires b in s.nodes && s.nodes[b].mode == Running && s.nodes[b].pred.Some? && s.nodes[b].succ.Some?
    requires m.Join? && !Splits(s, b, m)
    ensures React(s, b, m) == (s.nodes[b], SILENT.(after := [PassOn(b, s.nodes[b], m)]))
  {
    hide HandleValue, HandleNewRange, HandleLeaving, HandleClose, HandleJoinResponse, KeepLower, Handover;
  }

  lemma TokenPassOk(s: Net, sh: Shape, loc: map<Id, Loc>, b: Id, m: Msg)
    requires Normal(s, sh, loc) && b in s.nodes && s.nodes[b].mode == Running && InHand(s, sh, loc, m)
    requires m.Join? && !Splits(s, b, m)
    ensures !React(s, b, m).1.fault && Member(sh, b) && s.nodes[b].succ == Some(sh.nxt[b])
    ensures var m' := if m.maxSpan < Span(s.nodes[b]) then Join(m.src, Span(s.nodes[b]), b) else m;
            && Receive(s, b, m) == PushDown(s, b, sh.nxt[b], [m'])
            && Normal(Receive(s, b, m), sh, loc[m.src := OnLink(b, sh.nxt[b])])
  {
    hide Normal, React, ShapeOk, StoreOk, KeysWithin;
    MemberFields(s, sh, loc, b);
    PassReaction(s, b, m);
    var m' := PassOn(b, s.nodes[b], m);
    ForwardOk(s, sh, loc, b, m');
    ForwardEmit(s, b, s.nodes[b], sh.nxt[b], m');
    hide Emit;
  }

  // ---- the joiner reads its answer and connects to its successor ----

  ghost predicate AtAnswer(s: Net, sh: Shape, e: Event) {
    e.RecvPred? && Enabled(s, e) && s.nodes[e.b].mode == JoinWait && Member(sh, e.b)
  }

  ghost predicate AfterAnswer(s: Net, s': Net, b: Id, x: Id, c: Id, m: Msg) {
    && b in s.nodes && Down(s, x, b) != [] && m == Down(s, x, b)[0] && m.JoinResponse? && m.next == c
    && s'.nodes == s.nodes[b := s.nodes[b].(mode := Running, lo := m.lo, hi := m.hi, store := EMPTY_STORE,
                                             succ := Some(c), succAddr := c)]
    && (forall a {:trigger Backlog(s', a)} :: Backlog(s', a) == if a == c then Backlog(s, c) + [b] else Backlog(s, a))
    && (forall y: Id, z: Id {:trigger Down(s', y, z)} ::
          Down(s', y, z) == if (y, z) == (x, b) then Down(s, x, b)[1..]
            else if (y, z) == (b, c) then [] else Down(s, y, z))
    && (forall y: Id, z: Id {:trigger Up(s', y, z)} :: Up(s, y, z) == [] ==> Up(s', y, z) == [])
    && s'.udp == s.udp && s'.leaving == s.leaving
  }

  lemma AnswerEffect(s: Net, sh: Shape, e: Event)
    requires Locals(s, sh) && AtAnswer(s, sh, e)
    ensures !Faults(s, e)
    ensures AfterAnswer(s, Do(s, e), e.b, s.nodes[e.b].pred.value, sh.nxt[e.b],
                        Down(s, s.nodes[e.b].pred.value, e.b)[0])
    ensures var m := Down(s, s.nodes[e.b].pred.value, e.b)[0]; m.lo == sh.lo[e.b] && m.hi == sh.hi[e.b]
    ensures sh.nxt[e.b] != e.b
  {
    hide Tiles, Handle, StoreOk, PipeOk, Enabled, PopUp;
    var b := e.b;
    var x := s.nodes[b].pred.value;
    assert LocalOk(s, sh, b);
    assert Pipe(s, b)[0] == x;
    var m := Down(s, x, b)[0];
    assert (x, b) != (b, m.next);
  }

  lemma AnswerJoiner(s: Net, s': Net, sh: Shape, b: Id, x: Id, m: Msg)
    requires Linked(sh) && Member(sh, b) && b in sh.lo && b in sh.hi && LocalOk(s, sh, b)
    requires s.nodes[b].mode == JoinWait && s.nodes[b].pred == Some(x) && sh.nxt[b] != b
    requires AfterAnswer(s, s', b, x, sh.nxt[b], m) && m.lo == sh.lo[b] && m.hi == sh.hi[b]
    ensures LocalOk(s', sh, b)
  {
    var p := Pipe(s, b);
    assert sh.prv[b] != b by { assert sh.nxt[sh.prv[b]] == b; }
    assert Pipe(s', b) == p && p[0] == x && LinkFrom(s', sh.prv[b], b) == LinkFrom(s, sh.prv[b], b);
    PipeRead(s, s', b, p, true, LinkFrom(s, sh.prv[b], b));
  }

  lemma AnswerSuccessor(s: Net, s': Net, sh: Shape, b: Id, x: Id, c: Id, m: Msg)
    requires c in sh.nxt && c in sh.prv && c in sh.lo && c in sh.hi && LocalOk(s, sh, c)
    requires sh.prv[c] == b && sh.nxt[c] != c && c != b
    requires b in s.nodes && s.nodes[b].mode == JoinWait && s.nodes[b].succ == None && b !in Pipe(s, c)
    requires AfterAnswer(s, s', b, x, c, m)
    ensures LocalOk(s', sh, c)
  {
    hide NodeOk, PipeOk;
    assert LinkFrom(s, b, c) == None && LinkFrom(s', b, c) == Some(b);
    assert Pipe(s', c) == Pipe(s, c) + [b];
    PipeExtend(s, s', c, Pipe(s, c), !InRing(s.nodes[c]), b);
  }

  lemma AnswerLocals(s: Net, s': Net, sh: Shape, b: Id, x: Id, m: Msg)
    requires Locals(s, sh) && Member(sh, b) && b in s.nodes && s.nodes[b].mode == JoinWait && s.nodes[b].pred == Some(x)
    requires sh.nxt[b] != b && b !in Pipe'(s, sh.nxt[b])
    requires AfterAnswer(s, s', b, x, sh.nxt[b], m) && m.lo == sh.lo[b] && m.hi == sh.hi[b]
    ensures Locals(s', sh)
  {
    hide Tiles, PipeOk, StoreOk, KeysWithin;
    var c := sh.nxt[b];
    assert LocalOk(s, sh, b) && s.nodes[b].succ == None;
    hide NodeOk;
    assert Member(sh, c) && LocalOk(s, sh, c) && sh.prv[c] == b && sh.nxt[c] != c;
    AnswerJoiner(s, s', sh, b, x, m);
    AnswerSuccessor(s, s', sh, b, x, c, m);
    forall a {:trigger Member(sh, a)} | Member(sh, a) ensures LocalOk(s', sh, a) {
      if a != b && a != c {
        assert LocalOk(s, sh, a);
        assert sh.prv[a] != b by { assert sh.nxt[sh.prv[a]] == a; }
        assert SameView(s, s', a);
        LocalFrameSame(s, s', sh, a);
      }
    }
    OutsidersFrame(s, s', sh);
  }

  /** Pipe, for an identity that may be unknown. */
  function Pipe'(s: Net, b: Id): seq<Id> {
    if b in s.nodes then Pipe(s, b) else []
  }

  lemma AnswerStreams(s: Net, s': Net, sh: Shape, b: Id, x: Id, m: Msg)
    requires Streams(s, sh) && Linked(sh) && Member(sh, b) && b in s.nodes
    requires s.nodes[b].pred == Some(x) && sh.nxt[b] != b
    requires sh.nxt[b] in s.nodes && AfterAnswer(s, s', b, x, sh.nxt[b], m)
    ensures Streams(s', sh)
  {
    var c := sh.nxt[b];
    forall y: Id {:trigger Pipe(s', y)} | y in s.nodes
      ensures Pipe(s', y) == if y == c then Pipe(s, c) + [b] else Pipe(s, y) {}
    AnswerStreamsAt(s, s', sh, b, x, c, m);
  }

  lemma AnswerStreamsAt(s: Net, s': Net, sh: Shape, b: Id, x: Id, c: Id, m: Msg)
    requires Streams(s, sh) && b in s.nodes && c in s.nodes && AfterAnswer(s, s', b, x, c, m)
    requires forall y: Id {:trigger Pipe(s', y)} :: y in s.nodes ==>
               Pipe(s', y) == if y == c then Pipe(s, c) + [b] else Pipe(s, y)
    ensures Streams(s', sh)
  {
    forall y: Id, z: Id {:trigger Member(sh, y), z in Pipe(s', y)} | Member(sh, y) && y in s'.nodes && z in Pipe(s', y)
      ensures z in s'.nodes && InRing(s'.nodes[z])
    {
      assert z in Pipe(s, y) || z == b;
    }
    forall y: Id, z: Id {:trigger Down(s', y, z)} | Down(s', y, z) != []
      ensures Member(sh, z) && z in s'.nodes && y in Pipe(s', z)
    {
      assert Down(s, y, z) != [];
      assert y in Pipe(s, z);
    }
    forall y: Id, z: Id {:trigger Up(s', y, z)} ensures Up(s', y, z) == [] {
      assert Up(s, y, z) == [];
    }
  }

  lemma AnswerTokens(s: Net, s': Net, sh: Shape, loc: map<Id, Loc>, b: Id, x: Id, c: Id, m: Msg)
    requires Tokens(s, sh, loc) && AfterAnswer(s, s', b, x, c, m)
    ensures Tokens(s', sh, loc)
  {
    forall y: Id, z: Id {:trigger Down(s', y, z)} ensures TokensOn(Down(s', y, z), OnLink(y, z), loc) {
      assert TokensOn(Down(s, y, z), OnLink(y, z), loc);
      if (y, z) == (x, b) {
        PopTokens(Down(s, x, b), OnLink(x, b), loc);
      }
    }
    forall j | j in loc ensures Outsider(s', sh, j) {
      assert Outsider(s, sh, j);
    }
  }

  lemma AnswerOk(s: Net, sh: Shape, loc: map<Id, Loc>, e: Event)
    requires Normal(s, sh, loc) && AtAnswer(s, sh, e)
    ensures Normal(Do(s, e), sh, loc) && !Faults(s, e)
  {
    var b := e.b;
    var x := s.nodes[b].pred.value;
    var c := sh.nxt[b];
    AnswerEffect(s, sh, e);
    assert Member(sh, c) && LocalOk(s, sh, c);
    assert b !in Pipe(s, c);
    var m := Down(s, x, b)[0];
    AnswerLocals(s, Do(s, e), sh, b, x, m);
    AnswerStreams(s, Do(s, e), sh, b, x, m);
    AnswerTokens(s, Do(s, e), sh, loc, b, x, c, m);
  }

  // ---- the old successor reads NET_CLOSE_CONNECTION ----

  ghost predicate AtClose(s: Net, e: Event) {
    && e.RecvPred? && Enabled(s, e) && s.nodes[e.b].mode == Running
    && Down(s, s.nodes[e.b].pred.value, e.b)[0] == Close
  }

  ghost predicate AfterClose(s: Net, s': Net, b: Id, x: Id) {
    && b in s.nodes && s'.nodes == s.nodes[b := s.nodes[b].(pred := None, mode := AwaitPred)]
    && s'.backlog == s.backlog
    && (forall y: Id, z: Id {:trigger Down(s', y, z)} ::
          Down(s', y, z) == if (y, z) == (x, b) then [] else Down(s, y, z))
    && (forall y: Id, z: Id {:trigger Up(s', y, z)} :: Up(s, y, z) == [] ==> Up(s', y, z) == [])
    && s'.udp == s.udp && s'.leaving == s.leaving
  }

  lemma CloseEffect(s: Net, sh: Shape, loc: map<Id, Loc>, e: Event)
    requires Normal(s, sh, loc) && AtClose(s, e)
    ensures !Faults(s, e) && Member(sh, e.b) && AfterClose(s, Do(s, e), e.b, s.nodes[e.b].pred.value)
  {
    hide LocalOk, Locals, Streams, KeepLower;
    MemberFields(s, sh, loc, e.b);
  }

  lemma PipeTail(s: Net, s': Net, b: Id, x: Id, p: seq<Id>, skip: bool, from: Option<Id>)
    requires PipeOk(s, b, p, skip, from) && p != [] && p[0] == x && AfterClose(s, s', b, x)
    ensures forall i :: 0 < i < |p| ==> Down(s', p[i], b) == Down(s, p[i], b)
  {
  }

  lemma CloseReader(s: Net, s': Net, sh: Shape, b: Id, x: Id)
    requires b in sh.nxt && b in sh.prv && b in sh.lo && b in sh.hi && LocalOk(s, sh, b)
    requires s.nodes[b].mode == Running && s.nodes[b].pred == Some(x)
    requires Down(s, x, b) != [] && Down(s, x, b)[0] == Close && AfterClose(s, s', b, x)
    ensures LocalOk(s', sh, b)
  {
    hide PipeOk, KeysWithin, StoreOk;
    var p := Pipe(s, b);
    var from := LinkFrom(s, sh.prv[b], b);
    assert p[0] == x && Pipe(s', b) == p[1..] && LinkFrom(s', sh.prv[b], b) == from;
    PipeTail(s, s', b, x, p, false, from);
    PipeDrop(s, s', b, p, from);
  }

  lemma CloseLocals(s: Net, s': Net, sh: Shape, b: Id, x: Id)
    requires Locals(s, sh) && Member(sh, b) && b in s.nodes && s.nodes[b].mode == Running && s.nodes[b].pred == Some(x)
    requires Down(s, x, b) != [] && Down(s, x, b)[0] == Close && AfterClose(s, s', b, x)
    ensures Locals(s', sh)
  {
    CloseReader(s, s', sh, b, x);
    forall a {:trigger Member(sh, a)} | Member(sh, a) && a != b ensures SameView(s, s', a) {
      assert LocalOk(s, sh, a);
    }
    LocalsBut(s, s', sh, b);
  }

  lemma CloseStreams(s: Net, s': Net, sh: Shape, b: Id, x: Id)
    requires Streams(s, sh) && b in s.nodes && s.nodes[b].pred == Some(x) && AfterClose(s, s', b, x)
    requires InRing(s.nodes[b])
    ensures Streams(s', sh)
  {
    assert Pipe(s, b) == [x] + Pipe(s', b);
    forall y: Id, z: Id {:trigger Member(sh, y), z in Pipe(s', y)} | Member(sh, y) && y in s'.nodes && z in Pipe(s', y)
      ensures z in s'.nodes && InRing(s'.nodes[z])
    {
      assert z in Pipe(s, y);
    }
    forall y: Id, z: Id {:trigger Down(s', y, z)} | Down(s', y, z) != []
      ensures Member(sh, z) && z in s'.nodes && y in Pipe(s', z)
    {
      assert Down(s, y, z) != [];
    }
    forall y: Id, z: Id {:trigger Up(s', y, z)} ensures Up(s', y, z) == [] {
      assert Up(s, y, z) == [];
    }
  }

  lemma CloseTokens(s: Net, s': Net, sh: Shape, loc: map<Id, Loc>, b: Id, x: Id)
    requires Tokens(s, sh, loc) && AfterClose(s, s', b, x)
    ensures Tokens(s', sh, loc)
  {
    forall y: Id, z: Id {:trigger Down(s', y, z)} ensures TokensOn(Down(s', y, z), OnLink(y, z), loc) {
      assert TokensOn(Down(s, y, z), OnLink(y, z), loc);
    }
    forall j | j in loc ensures Outsider(s', sh, j) {
      assert Outsider(s, sh, j);
    }
  }

  lemma CloseOk(s: Net, sh: Shape, loc: map<Id, Loc>, e: Event)
    requires Normal(s, sh, loc) && AtClose(s, e)
    ensures Normal(Do(s, e), sh, loc) && !Faults(s, e)
  {
    var x := s.nodes[e.b].pred.value;
    CloseEffect(s, sh, loc, e);
    CloseLocals(s, Do(s, e), sh, e.b, x);
    CloseStreams(s, Do(s, e), sh, e.b, x);
    CloseTokens(s, Do(s, e), sh, loc, e.b, x);
  }
}
