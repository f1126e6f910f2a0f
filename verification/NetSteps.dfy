/** Events that do not change the shape of the ring keep the invariant. */
module NetSteps {
  import opened Base
  import opened Ranges
  import opened StoreSpec
  import opened NodeSpec
  import opened Network
  import opened NetViews
  import opened Ring
  import opened NetInv

  // ---- frames for the three parts of the invariant ----

  /** Every node is still there, with the same streams to read and the same standing. */
  ghost predicate SameReaders(s: Net, s': Net) {
    forall b {:trigger b in s'.nodes} :: b in s.nodes ==>
      b in s'.nodes && Pipe(s', b) == Pipe(s, b) && (InRing(s.nodes[b]) ==> InRing(s'.nodes[b]))
  }

  lemma StreamsFrame(s: Net, s': Net, sh: Shape)
    requires Streams(s, sh) && SameReaders(s, s')
    requires forall b :: Member(sh, b) && b in s'.nodes ==> b in s.nodes
    requires forall x: Id, y: Id {:trigger Down(s', x, y)} :: Down(s', x, y) != [] ==> Down(s, x, y) != []
    requires s'.up == s.up
    requires forall p :: p in s'.udp && p !in s.udp ==>
               Member(sh, p.dest) && p.dest in s.nodes && InRing(s.nodes[p.dest]) && PlainMsg(p.m)
    ensures Streams(s', sh)
  {
    forall b: Id, x: Id {:trigger Member(sh, b), x in Pipe(s', b)} | Member(sh, b) && b in s'.nodes && x in Pipe(s', b)
      ensures x in s'.nodes && InRing(s'.nodes[x])
    {
      assert x in Pipe(s, b);
    }
    forall x: Id, y: Id {:trigger Down(s', x, y)} | Down(s', x, y) != []
      ensures Member(sh, y) && y in s'.nodes && x in Pipe(s', y)
    {
      assert Down(s, x, y) != [];
    }
    forall x: Id, y: Id {:trigger Up(s', x, y)} ensures Up(s', x, y) == [] {
      assert Up(s, x, y) == [];
    }
  }

  /** Channels keep or lose tokens, the bag only loses some. */
  lemma TokensFrame(s: Net, s': Net, sh: Shape, loc: map<Id, Loc>)
    requires Tokens(s, sh, loc)
    requires s'.down == s.down
    requires forall b :: b in s.nodes ==> b in s'.nodes
    requires forall p :: p in s'.udp && p.m.Join? ==> p in s.udp && s'.udp[p] <= s.udp[p]
    ensures Tokens(s', sh, loc)
  {
    forall x: Id, y: Id {:trigger Down(s', x, y)} ensures TokensOn(Down(s', x, y), OnLink(x, y), loc) {
      assert Down(s', x, y) == Down(s, x, y);
    }
    forall j | j in loc ensures Outsider(s', sh, j) {
      assert Outsider(s, sh, j);
    }
  }

  /** Node a, its accept queue and the streams into it are as before. */
  ghost predicate SameView(s: Net, s': Net, a: Id) {
    && a in s.nodes && a in s'.nodes && s'.nodes[a] == s.nodes[a] && Backlog(s', a) == Backlog(s, a)
    && (forall x: Id {:trigger Down(s', x, a)} :: Down(s', x, a) == Down(s, x, a))
  }

  /** No node other than new joiners changed what its successor socket is connected to. */
  ghost predicate SameLinks(s: Net, s': Net) {
    forall a: Id, b: Id {:trigger LinkFrom(s', a, b)} :: LinkFrom(s', a, b) == LinkFrom(s, a, b)
  }

  lemma LocalFrameSame(s: Net, s': Net, sh: Shape, a: Id)
    requires a in sh.nxt && a in sh.prv && a in sh.lo && a in sh.hi && LocalOk(s, sh, a)
    requires SameView(s, s', a) && LinkFrom(s', sh.prv[a], a) == LinkFrom(s, sh.prv[a], a)
    ensures LocalOk(s', sh, a)
  {
    forall x: Id ensures Down(s', x, a) == Down(s, x, a) {}
    LocalFrame(s, s', sh, a);
  }

  /** Everything is as before but for one member, which is well again. */
  lemma LocalsBut(s: Net, s': Net, sh: Shape, b: Id)
    requires Locals(s, sh) && SameLinks(s, s')
    requires Member(sh, b) ==> LocalOk(s', sh, b)
    requires forall a {:trigger Member(sh, a)} :: Member(sh, a) && a != b ==> SameView(s, s', a)
    requires forall j {:trigger Outsider(s', sh, j)} :: Outsider(s', sh, j) ==>
               (j in s.nodes && s'.nodes[j] == s.nodes[j] && Backlog(s', j) == Backlog(s, j)) || Fresh(s', j)
    ensures Locals(s', sh)
  {
    forall a {:trigger Member(sh, a)} | Member(sh, a) ensures LocalOk(s', sh, a) {
      if a != b {
        LocalFrameSame(s, s', sh, a);
      }
    }
    OutsidersFrame(s, s', sh);
  }

  /** A member changed, but not what it reads nor whether it has joined. */
  lemma LocalChanged(s: Net, s': Net, sh: Shape, b: Id)
    requires b in sh.nxt && b in sh.prv && b in sh.lo && b in sh.hi && LocalOk(s, sh, b)
    requires b in s'.nodes && Pipe(s', b) == Pipe(s, b) && s'.down == s.down
    requires InRing(s'.nodes[b]) == InRing(s.nodes[b])
    requires NodeOk(s'.nodes[b], b, sh.nxt[b], sh.lo[b], sh.hi[b])
    requires LinkFrom(s', sh.prv[b], b) == LinkFrom(s, sh.prv[b], b)
    ensures LocalOk(s', sh, b)
  {
    forall x: Id ensures Down(s', x, b) == Down(s, x, b) {}
    PipeFrame(s, s', b, Pipe(s, b), !InRing(s.nodes[b]), LinkFrom(s, sh.prv[b], b));
  }

  /** Only the bag changed, or the node map grew by a fresh joiner. */
  lemma LocalsFrame(s: Net, s': Net, sh: Shape, j: Id)
    requires Locals(s, sh) && SameLinks(s, s')
    requires s'.down == s.down && !Member(sh, j)
    requires forall b :: b in s.nodes ==> b in s'.nodes && s'.nodes[b] == s.nodes[b] && Backlog(s', b) == Backlog(s, b)
    requires forall b :: b in s'.nodes && b !in s.nodes ==> Fresh(s', b)
    ensures Locals(s', sh)
  {
    forall a {:trigger Member(sh, a)} | Member(sh, a) && a != j ensures SameView(s, s', a) {
      assert LocalOk(s, sh, a);
    }
    LocalsBut(s, s', sh, j);
  }

  lemma OutsidersFrame(s: Net, s': Net, sh: Shape)
    requires Locals(s, sh)
    requires forall j {:trigger Outsider(s', sh, j)} :: Outsider(s', sh, j) ==>
               (j in s.nodes && s'.nodes[j] == s.nodes[j] && Backlog(s', j) == Backlog(s, j)) || Fresh(s', j)
    ensures forall j {:trigger Outsider(s', sh, j)} :: Outsider(s', sh, j) ==> Fresh(s', j)
  {
    forall j {:trigger Outsider(s', sh, j)} | Outsider(s', sh, j) ensures Fresh(s', j) {
      assert j in s.nodes ==> Outsider(s, sh, j);
    }
  }

  /** A fresh joiner's successor socket is not connected. */
  lemma IsMember(s: Net, sh: Shape, b: Id)
    requires Locals(s, sh) && b in s.nodes && s.nodes[b].mode != Joining
    ensures Member(sh, b)
  {
    assert !Outsider(s, sh, b);
  }

  // ---- events that only touch the bag ----

  lemma ClientSendOk(s: Net, sh: Shape, loc: map<Id, Loc>, e: Event)
    requires Normal(s, sh, loc) && e.ClientSend? && Enabled(s, e)
    ensures Normal(Do(s, e), sh, loc)
  {
    hide Locals, Streams, Tokens;
    var s' := Do(s, e);
    IsMember(s, sh, e.dest);
    NewcomerIsOutside(s, sh, 0);
    LocalsFrame(s, s', sh, 0);
    StreamsFrame(s, s', sh);
    TokensFrame(s, s', sh, loc);
  }

  lemma JoinStartTokens(s: Net, sh: Shape, loc: map<Id, Loc>, e: Event)
    requires Tokens(s, sh, loc) && e.JoinStart? && Enabled(s, e) && !Member(sh, e.j)
    ensures Tokens(Do(s, e), sh, loc[e.j := InBag])
  {
    var s' := Do(s, e);
    var loc' := loc[e.j := InBag];
    assert !Outsider(s, sh, e.j);
    forall x: Id, y: Id {:trigger Down(s', x, y)} ensures TokensOn(Down(s', x, y), OnLink(x, y), loc') {
      assert Down(s', x, y) == Down(s, x, y);
      assert TokensOn(Down(s, x, y), OnLink(x, y), loc);
    }
    forall p | p in s.udp && p.m.Join? ensures p.m.src != e.j {
      assert p.m.src in loc;
    }
    forall j | j in loc' ensures Outsider(s', sh, j) {
      assert j in loc ==> Outsider(s, sh, j);
    }
  }

  lemma MemberIsLocal(s: Net, sh: Shape, b: Id)
    requires Locals(s, sh) && Member(sh, b)
    ensures b in sh.prv && b in sh.lo && b in sh.hi && LocalOk(s, sh, b)
  {
  }

  lemma OutsiderIsFresh(s: Net, sh: Shape, j: Id)
    requires Locals(s, sh) && Outsider(s, sh, j)
    ensures Fresh(s, j)
  {
  }

  lemma MemberIsThere(s: Net, sh: Shape, b: Id)
    requires Locals(s, sh) && Member(sh, b)
    ensures b in s.nodes
  {
  }

  lemma NewcomerIsOutside(s: Net, sh: Shape, j: Id)
    requires Locals(s, sh) && j !in s.nodes
    ensures !Member(sh, j)
  {
    hide Locals;
    if Member(sh, j) {
      MemberIsThere(s, sh, j);
    }
  }

  lemma JoinStartOk(s: Net, sh: Shape, loc: map<Id, Loc>, e: Event)
    requires Normal(s, sh, loc) && e.JoinStart? && Enabled(s, e)
    ensures Normal(Do(s, e), sh, loc[e.j := InBag])
  {
    hide Locals, Streams, Tokens;
    var s' := Do(s, e);
    IsMember(s, sh, e.entry);
    NewcomerIsOutside(s, sh, e.j);
    LocalsFrame(s, s', sh, e.j);
    StreamsFrame(s, s', sh);
    JoinStartTokens(s, sh, loc, e);
  }

  /** Once its token is taken out of a stream or the bag it is nowhere. */
  function LocWithout(loc: map<Id, Loc>, m: Msg): map<Id, Loc> {
    if m.Join? then loc - {m.src} else loc
  }

  /** A plain message that was taken from a stream or the bag; a token's joiner has no other. */
  ghost predicate InHand(s: Net, sh: Shape, loc: map<Id, Loc>, m: Msg) {
    PlainMsg(m) && (m.Join? ==> Outsider(s, sh, m.src) && m.src !in loc)
  }

  lemma PopUdpTokens(s: Net, sh: Shape, loc: map<Id, Loc>, p: Packet)
    requires Tokens(s, sh, loc) && p in s.udp
    ensures Tokens(s.(udp := s.udp - multiset{p}), sh, LocWithout(loc, p.m))
  {
    var s' := s.(udp := s.udp - multiset{p});
    var loc' := LocWithout(loc, p.m);
    forall x: Id, y: Id {:trigger Down(s', x, y)} ensures TokensOn(Down(s', x, y), OnLink(x, y), loc') {
      assert Down(s', x, y) == Down(s, x, y);
      assert TokensOn(Down(s, x, y), OnLink(x, y), loc);
    }
    forall q | q in s'.udp && q.m.Join?
      ensures q.m.src in loc' && loc'[q.m.src] == InBag && s'.udp[q] == 1
    {
      assert q in s.udp;
    }
    forall j | j in loc' ensures Outsider(s', sh, j) {
      assert Outsider(s, sh, j);
    }
  }

  lemma PopUdpHand(s: Net, sh: Shape, loc: map<Id, Loc>, p: Packet)
    requires Normal(s, sh, loc) && p in s.udp
    ensures InHand(s.(udp := s.udp - multiset{p}), sh, LocWithout(loc, p.m), p.m)
  {
    hide Locals;
    if p.m.Join? {
      assert Outsider(s, sh, p.m.src);
    }
  }

  lemma PopUdpOk(s: Net, sh: Shape, loc: map<Id, Loc>, p: Packet)
    requires Normal(s, sh, loc) && p in s.udp
    ensures Normal(s.(udp := s.udp - multiset{p}), sh, LocWithout(loc, p.m))
    ensures InHand(s, sh, LocWithout(loc, p.m), p.m)
  {
    hide Locals, ShapeOk, Streams, Tokens;
    var s' := s.(udp := s.udp - multiset{p});
    NewcomerIsOutside(s, sh, 0);
    LocalsFrame(s, s', sh, 0);
    StreamsFrame(s, s', sh);
    PopUdpTokens(s, sh, loc, p);
    PopUdpHand(s, sh, loc, p);
  }

  // ---- taking the first message of a stream ----

  lemma PopDownReader(s: Net, sh: Shape, b: Id)
    requires Linked(sh) && Member(sh, b) && b in sh.prv && b in sh.lo && b in sh.hi && LocalOk(s, sh, b)
    requires s.nodes[b].mode == Running && s.nodes[b].pred.Some?
    requires var ch := Down(s, s.nodes[b].pred.value, b); ch != [] && PlainMsg(ch[0])
    ensures LocalOk(PopDown(s, s.nodes[b].pred.value, b), sh, b)
  {
    var x := s.nodes[b].pred.value;
    var s' := PopDown(s, x, b);
    var p := Pipe(s, b);
    assert p[0] == x && Pipe(s', b) == p && LinkFrom(s', sh.prv[b], b) == LinkFrom(s, sh.prv[b], b);
    PipeRead(s, s', b, p, false, LinkFrom(s, sh.prv[b], b));
  }

  lemma PopDownLocals(s: Net, sh: Shape, b: Id)
    requires Locals(s, sh) && Member(sh, b) && b in s.nodes && s.nodes[b].mode == Running && s.nodes[b].pred.Some?
    requires var ch := Down(s, s.nodes[b].pred.value, b); ch != [] && PlainMsg(ch[0])
    ensures Locals(PopDown(s, s.nodes[b].pred.value, b), sh)
  {
    var x := s.nodes[b].pred.value;
    var s' := PopDown(s, x, b);
    PopDownReader(s, sh, b);
    LocalsBut(s, s', sh, b);
  }

  lemma PopTokens(ch: seq<Msg>, l: Loc, loc: map<Id, Loc>)
    requires ch != [] && TokensOn(ch, l, loc)
    ensures TokensOn(ch[1..], l, LocWithout(loc, ch[0]))
  {
    var ch' := ch[1..];
    forall i | 0 <= i < |ch'| && ch'[i].Join?
      ensures ch'[i] == ch[i + 1] && (ch[0].Join? ==> ch'[i].src != ch[0].src) {}
    forall i, k | 0 <= i < k < |ch'| && ch'[i].Join? && ch'[k].Join? ensures ch'[i].src != ch'[k].src {
      assert ch'[i] == ch[i + 1] && ch'[k] == ch[k + 1];
    }
  }

  lemma PopDownTokens(s: Net, sh: Shape, loc: map<Id, Loc>, x: Id, b: Id)
    requires Tokens(s, sh, loc) && Down(s, x, b) != []
    ensures Tokens(PopDown(s, x, b), sh, LocWithout(loc, Down(s, x, b)[0]))
  {
    var s' := PopDown(s, x, b);
    var m := Down(s, x, b)[0];
    var loc' := LocWithout(loc, m);
    assert TokensOn(Down(s, x, b), OnLink(x, b), loc);
    forall y: Id, z: Id {:trigger Down(s', y, z)} ensures TokensOn(Down(s', y, z), OnLink(y, z), loc') {
      assert TokensOn(Down(s, y, z), OnLink(y, z), loc);
      if (y, z) == (x, b) {
        PopTokens(Down(s, x, b), OnLink(x, b), loc);
      } else {
        assert Down(s', y, z) == Down(s, y, z);
      }
    }
    forall j | j in loc' ensures Outsider(s', sh, j) {
      assert Outsider(s, sh, j);
    }
  }

  lemma PopDownOk(s: Net, sh: Shape, loc: map<Id, Loc>, b: Id)
    requires Normal(s, sh, loc) && b in s.nodes && s.nodes[b].mode == Running && s.nodes[b].pred.Some?
    requires var ch := Down(s, s.nodes[b].pred.value, b); ch != [] && PlainMsg(ch[0])
    ensures var x := s.nodes[b].pred.value; var m := Down(s, x, b)[0];
            Normal(PopDown(s, x, b), sh, LocWithout(loc, m)) && InHand(s, sh, LocWithout(loc, m), m)
  {
    hide Streams, Locals, Linked;
    var x := s.nodes[b].pred.value;
    var m := Down(s, x, b)[0];
    IsMember(s, sh, b);
    PopDownLocals(s, sh, b);
    PopDownTokens(s, sh, loc, x, b);
    StreamsFrame(s, PopDown(s, x, b), sh);
    if m.Join? {
      assert TokensOn(Down(s, x, b), OnLink(x, b), loc);
      assert Outsider(s, sh, m.src);
    }
  }

  // ---- handling a client request in hand ----

  /** Member b changes in what others do not see: not its streams, nor its link, nor its standing. */
  ghost predicate PrivateChange(s: Net, s': Net, b: Id) {
    && b in s.nodes && s'.nodes.Keys == s.nodes.Keys && s'.down == s.down
    && (forall a :: a in s.nodes && a != b ==> s'.nodes[a] == s.nodes[a] && Backlog(s', a) == Backlog(s, a))
    && s'.nodes[b].succ == s.nodes[b].succ && Pipe(s', b) == Pipe(s, b)
    && InRing(s'.nodes[b]) == InRing(s.nodes[b])
  }

  lemma PrivateLocals(s: Net, s': Net, sh: Shape, b: Id)
    requires Locals(s, sh) && Member(sh, b) && PrivateChange(s, s', b)
    requires NodeOk(s'.nodes[b], b, sh.nxt[b], sh.lo[b], sh.hi[b])
    ensures Locals(s', sh)
  {
    assert SameLinks(s, s');
    LocalChanged(s, s', sh, b);
    forall a {:trigger Member(sh, a)} | Member(sh, a) && a != b ensures SameView(s, s', a) {
      assert LocalOk(s, sh, a);
    }
    LocalsBut(s, s', sh, b);
  }

  lemma PrivateReaders(s: Net, s': Net, b: Id)
    requires PrivateChange(s, s', b)
    ensures SameReaders(s, s')
  {
  }

  lemma PrivateOk(s: Net, s': Net, sh: Shape, loc: map<Id, Loc>, b: Id)
    requires Normal(s, sh, loc) && Member(sh, b) && PrivateChange(s, s', b)
    requires s'.up == s.up && s'.udp == s.udp && s'.leaving == s.leaving
    requires NodeOk(s'.nodes[b], b, sh.nxt[b], sh.lo[b], sh.hi[b])
    ensures Normal(s', sh, loc)
  {
    PrivateLocals(s, s', sh, b);
    PrivateReaders(s, s', b);
    StreamsFrame(s, s', sh);
    TokensFrame(s, s', sh, loc);
  }

  /** A member's table changes within its range. */
  lemma StoreChangeOk(s: Net, sh: Shape, loc: map<Id, Loc>, b: Id, st: Store)
    requires Normal(s, sh, loc) && b in s.nodes && s.nodes[b].mode == Running
    requires Member(sh, b) && StoreOk(st) && KeysWithin(st, sh.lo[b], sh.hi[b])
    ensures Normal(s.(nodes := s.nodes[b := s.nodes[b].(store := st)]), sh, loc)
  {
    hide Streams, TokensOn;
    assert LocalOk(s, sh, b);
    PrivateOk(s, s.(nodes := s.nodes[b := s.nodes[b].(store := st)]), sh, loc, b);
  }

  lemma ForwardReader(s: Net, sh: Shape, b: Id, c: Id, m: Msg)
    requires c in sh.nxt && c in sh.prv && c in sh.lo && c in sh.hi && LocalOk(s, sh, c)
    requires b in s.nodes && sh.prv[c] == b && s.nodes[b].succ == Some(c) && PlainMsg(m)
    ensures LocalOk(PushDown(s, b, c, [m]), sh, c) && b in Pipe(s, c)
  {
    var s' := PushDown(s, b, c, [m]);
    var p := Pipe(s, c);
    assert LinkFrom(s, b, c) == Some(b) && Pipe(s', c) == p && LinkFrom(s', b, c) == Some(b);
    PipeWrite(s, s', c, p, !InRing(s.nodes[c]), b, m);
  }

  /** A member writes one plain message to its successor. */
  lemma ForwardLocals(s: Net, sh: Shape, b: Id, m: Msg)
    requires Locals(s, sh) && Member(sh, b) && b in s.nodes && s.nodes[b].succ == Some(sh.nxt[b]) && PlainMsg(m)
    ensures Locals(PushDown(s, b, sh.nxt[b], [m]), sh)
    ensures Member(sh, sh.nxt[b]) && sh.nxt[b] in s.nodes && b in Pipe(s, sh.nxt[b])
  {
    hide PipeOk, NodeOk, StoreOk;
    var c := sh.nxt[b];
    var s' := PushDown(s, b, c, [m]);
    assert Member(sh, c);
    assert LocalOk(s, sh, c);
    ForwardReader(s, sh, b, c, m);
    LocalsBut(s, s', sh, c);
  }

  lemma ForwardTokens(s: Net, sh: Shape, loc: map<Id, Loc>, b: Id, c: Id, m: Msg)
    requires Tokens(s, sh, loc) && (m.Join? ==> Outsider(s, sh, m.src) && m.src !in loc)
    ensures Tokens(PushDown(s, b, c, [m]), sh, if m.Join? then loc[m.src := OnLink(b, c)] else loc)
  {
    var s' := PushDown(s, b, c, [m]);
    var loc' := if m.Join? then loc[m.src := OnLink(b, c)] else loc;
    forall y: Id, z: Id {:trigger Down(s', y, z)} ensures TokensOn(Down(s', y, z), OnLink(y, z), loc') {
      assert TokensOn(Down(s, y, z), OnLink(y, z), loc);
      if (y, z) == (b, c) {
        assert Down(s', b, c) == Down(s, b, c) + [m];
      } else {
        assert Down(s', y, z) == Down(s, y, z);
      }
    }
    forall j | j in loc' ensures Outsider(s', sh, j) {
      assert j in loc ==> Outsider(s, sh, j);
      assert m.Join? ==> Outsider(s, sh, m.src);
    }
  }

  lemma PushStreams(s: Net, sh: Shape, b: Id, c: Id, ms: seq<Msg>)
    requires Streams(s, sh) && Member(sh, c) && c in s.nodes && b in Pipe(s, c)
    ensures Streams(PushDown(s, b, c, ms), sh)
  {
    var s' := PushDown(s, b, c, ms);
    forall a | a in s.nodes ensures Pipe(s', a) == Pipe(s, a) {}
    forall x: Id, y: Id {:trigger Down(s', x, y)} | Down(s', x, y) != []
      ensures Member(sh, y) && y in s'.nodes && x in Pipe(s', y)
    {
      assert (x, y) != (b, c) ==> Down(s', x, y) == Down(s, x, y);
    }
    forall x: Id, y: Id {:trigger Up(s', x, y)} ensures Up(s', x, y) == [] {
      assert Up(s, x, y) == [];
    }
  }

  lemma ForwardOk(s: Net, sh: Shape, loc: map<Id, Loc>, b: Id, m: Msg)
    requires Normal(s, sh, loc) && Member(sh, b) && b in s.nodes && s.nodes[b].succ == Some(sh.nxt[b])
    requires InHand(s, sh, loc, m)
    ensures Normal(PushDown(s, b, sh.nxt[b], [m]), sh, if m.Join? then loc[m.src := OnLink(b, sh.nxt[b])] else loc)
  {
    var c := sh.nxt[b];
    ForwardLocals(s, sh, b, m);
    PushStreams(s, sh, b, c, [m]);
    ForwardTokens(s, sh, loc, b, c, m);
  }

  /** A member's fields as the invariant gives them. */
  lemma MemberFields(s: Net, sh: Shape, loc: map<Id, Loc>, b: Id)
    requires Normal(s, sh, loc) && b in s.nodes && InRing(s.nodes[b])
    ensures Member(sh, b) && s.nodes[b].lo == sh.lo[b] && s.nodes[b].hi == sh.hi[b] && sh.lo[b] <= sh.hi[b]
    ensures StoreOk(s.nodes[b].store) && KeysWithin(s.nodes[b].store, sh.lo[b], sh.hi[b])
    ensures if sh.nxt[b] == b then
              s.nodes[b].succ.None? && s.nodes[b].pred.None? && s.nodes[b].lo == 0 && s.nodes[b].hi == LAST
              && |sh.order| == 1
            else
              s.nodes[b].succ == Some(sh.nxt[b]) && s.nodes[b].succAddr == sh.nxt[b]
              && (s.nodes[b].mode == Running <==> s.nodes[b].pred.Some?)
              && !(s.nodes[b].lo == 0 && s.nodes[b].hi == LAST)
  {
    IsMember(s, sh, b);
    AloneIff(sh, b);
    var i := IndexOf(sh, b);
    assert sh.lo[sh.order[i]] <= sh.hi[sh.order[i]];
  }

  lemma ValueOk(s: Net, sh: Shape, loc: map<Id, Loc>, b: Id, m: Msg)
    requires Normal(s, sh, loc) && b in s.nodes && s.nodes[b].mode == Running && IsRequest(m)
    ensures !React(s, b, m).1.fault
    ensures Normal(Receive(s, b, m), sh, loc)
    ensures Member(sh, b)
    ensures Receive(s, b, m) ==
            (if Owns(s.nodes[b], m.k) then s.(nodes := s.nodes[b := HandleValue(s.nodes[b], m).0])
             else PushDown(s, b, sh.nxt[b], [m]))
  {
    hide Normal, HandleValue, Handle, HandleJoinResponse, StoreOk, ShapeOk;
    ValueReaction(s, b, m);
    MemberFields(s, sh, loc, b);
    var n := s.nodes[b];
    if Owns(n, m.k) {
      var n' := StoredValue(n, m);
      QuietEmit(s, b, n, n', HandleValue(n, m).1);
      StoreChangeOk(s, sh, loc, b, n'.store);
    } else {
      assert HandleValue(n, m) == (n, Forward(n, m)) by { ForwardedValue(n, m); }
      ForwardOk(s, sh, loc, b, m);
      assert s.nodes[b := n] == s.nodes;
    }
  }

  lemma ValueReaction(s: Net, b: Id, m: Msg)
    requires b in s.nodes && s.nodes[b].mode == Running && IsRequest(m)
    ensures React(s, b, m) == HandleValue(s.nodes[b], m)
  {
    hide HandleValue, HandleJoin, HandleNewRange, HandleLeaving, HandleClose, HandleJoinResponse;
  }

  lemma ForwardedValue(n: Node, m: Msg)
    requires IsRequest(m) && !Owns(n, m.k)
    ensures HandleValue(n, m) == (n, Forward(n, m))
  {
    hide Owns;
  }

  /** A request that is handled at its owner changes the table only, and writes to no link. */
  lemma StoredValue(n: Node, m: Msg) returns (n': Node)
    requires IsRequest(m) && Owns(n, m.k) && StoreOk(n.store) && KeysWithin(n.store, n.lo, n.hi)
    ensures HandleValue(n, m).0 == n' == n.(store := n'.store) && Silent(HandleValue(n, m).1)
    ensures StoreOk(n'.store) && KeysWithin(n'.store, n.lo, n.hi)
  {
    hide StoreOk, Without;
    StoreOpsKeepAgreement(n.store, m.k, if m.Insert? then m.v else Value([], []), 0, 0);
    n' := HandleValue(n, m).0;
  }

  // ---- the accept a node is blocked in returns ----

  lemma AccepterIsMember(s: Net, sh: Shape, b: Id)
    requires Locals(s, sh) && b in s.nodes && Backlog(s, b) != []
    ensures Member(sh, b) && b in sh.prv && b in sh.lo && b in sh.hi && LocalOk(s, sh, b)
  {
    hide Tiles, PipeOk, NodeOk;
    assert Outsider(s, sh, b) ==> Fresh(s, b);
  }

  lemma AcceptIsPrivate(s: Net, sh: Shape, e: Event)
    requires Locals(s, sh) && e.Accept? && Enabled(s, e)
    ensures Member(sh, e.b) && PrivateChange(s, Do(s, e), e.b)
    ensures NodeOk(Do(s, e).nodes[e.b], e.b, sh.nxt[e.b], sh.lo[e.b], sh.hi[e.b])
  {
    hide PipeOk, Receive, Emit, Handle, Locals;
    var b := e.b;
    var s' := Do(s, e);
    AccepterIsMember(s, sh, b);
    assert Backlog(s, b) == [Backlog(s, b)[0]] + Backlog(s', b);
    assert Pipe(s', b) == Pipe(s, b);
  }

  lemma AcceptOk(s: Net, sh: Shape, loc: map<Id, Loc>, e: Event)
    requires Normal(s, sh, loc) && e.Accept? && Enabled(s, e)
    ensures Normal(Do(s, e), sh, loc)
  {
    AcceptIsPrivate(s, sh, e);
    PrivateOk(s, Do(s, e), sh, loc, e.b);
  }
}
