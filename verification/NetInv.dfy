/** The invariant of a network in which no node is leaving, for any number of joins and client
    requests in progress at once, and its preservation by every event that is not a split. */
module NetInv {
  import opened Base
  import opened Hash
  import opened Ranges
  import opened StoreSpec
  import opened NodeSpec
  import opened Network
  import opened Ring

  /** Where the NET_JOIN of a joiner is travelling. */
  datatype Loc = InBag | OnLink(x: Id, y: Id)

  /** The nodes whose streams b reads, in order: its predecessor, then the connections it has yet to accept. */
  function Pipe(s: Net, b: Id): seq<Id>
    requires b in s.nodes
  {
    (if s.nodes[b].pred.Some? then [s.nodes[b].pred.value] else []) + Backlog(s, b)
  }

  predicate PlainMsg(m: Msg) {
    IsRequest(m) || m.Join?
  }

  ghost predicate Plain(ch: seq<Msg>) {
    forall i :: 0 <= i < |ch| ==> PlainMsg(ch[i])
  }

  /** A stream whose writer has said NET_CLOSE_CONNECTION, as its last message. */
  ghost predicate Finished(ch: seq<Msg>) {
    |ch| > 0 && ch[|ch| - 1] == Close && Plain(ch[..|ch| - 1])
  }

  ghost predicate StreamOk(ch: seq<Msg>, open: bool) {
    if open then Plain(ch) else Finished(ch)
  }

  function Rest(ch: seq<Msg>, skip: bool): seq<Msg> {
    if skip && ch != [] then ch[1..] else ch
  }

  /** a, if a's successor connection goes to b. */
  function LinkFrom(s: Net, a: Id, b: Id): Option<Id> {
    if a in s.nodes && s.nodes[a].succ == Some(b) then Some(a) else None
  }

  /** All streams into b are finished but that of its ring predecessor, which is last, once connected. */
  ghost predicate PipeOk(s: Net, b: Id, p: seq<Id>, skip: bool, from: Option<Id>) {
    && Distinct(p)
    && (from.Some? ==> p != [] && p[|p| - 1] == from.value)
    && (forall i :: 0 <= i < |p| ==>
          StreamOk(Rest(Down(s, p[i], b), skip && i == 0), from.Some? && i == |p| - 1))
  }

  ghost predicate KeysWithin(st: Store, lo: int, hi: int) {
    forall k :: k in st.vals ==> InRange(HashOf(k), lo, hi)
  }

  /** A member's own fields, given its ring successor and range. */
  ghost predicate NodeOk(n: Node, b: Id, next: Id, lo: int, hi: int) {
    match n.mode
    case Joining => n.pred.None? && n.succ.None? && n.store == EMPTY_STORE
    case JoinWait => n.pred.Some? && n.succ.None? && n.store == EMPTY_STORE
    case LeaveWait => false
    case _ =>
      && n.lo == lo && n.hi == hi && StoreOk(n.store) && KeysWithin(n.store, lo, hi)
      && (if next == b then n.mode == Running && n.pred.None? && n.succ.None?
          else n.succ == Some(next) && n.succAddr == next && (n.mode == Running <==> n.pred.Some?))
  }

  /** A member that has not read its NET_JOIN_RESPONSE finds it first in its first stream. */
  ghost predicate ResponseWaits(s: Net, b: Id, p: seq<Id>, next: Id, lo: int, hi: int) {
    p != [] && Down(s, p[0], b) != []
    && var m := Down(s, p[0], b)[0]; m.JoinResponse? && m.next == next && m.lo == lo && m.hi == hi
  }

  ghost predicate LocalOk(s: Net, sh: Shape, b: Id)
    requires b in sh.nxt && b in sh.prv && b in sh.lo && b in sh.hi
  {
    && b in s.nodes
    && NodeOk(s.nodes[b], b, sh.nxt[b], sh.lo[b], sh.hi[b])
    && PipeOk(s, b, Pipe(s, b), !InRing(s.nodes[b]), LinkFrom(s, sh.prv[b], b))
    && (!InRing(s.nodes[b]) ==> ResponseWaits(s, b, Pipe(s, b), sh.nxt[b], sh.lo[b], sh.hi[b]))
    && (sh.nxt[b] == b ==> Pipe(s, b) == [])
  }

  /** A joiner nobody has answered yet. */
  ghost predicate Fresh(s: Net, j: Id)
    requires j in s.nodes
  {
    var n := s.nodes[j];
    n.mode == Joining && n.pred.None? && n.succ.None? && n.store == EMPTY_STORE && Backlog(s, j) == []
  }

  ghost predicate Outsider(s: Net, sh: Shape, j: Id) {
    j in s.nodes && !Member(sh, j)
  }

  ghost predicate Locals(s: Net, sh: Shape) {
    && ShapeOk(sh)
    && (forall b {:trigger Member(sh, b)} :: Member(sh, b) ==> LocalOk(s, sh, b))
    && (forall j {:trigger Outsider(s, sh, j)} :: Outsider(s, sh, j) ==> Fresh(s, j))
  }

  /** Every stream with something in it has a reader, and every writer is in the ring. */
  ghost predicate Streams(s: Net, sh: Shape) {
    && (forall b, x {:trigger Member(sh, b), x in Pipe(s, b)} ::
          Member(sh, b) && b in s.nodes && x in Pipe(s, b) ==> x in s.nodes && InRing(s.nodes[x]))
    && (forall x, y {:trigger Down(s, x, y)} ::
          Down(s, x, y) != [] ==> Member(sh, y) && y in s.nodes && x in Pipe(s, y))
    && (forall x, y {:trigger Up(s, x, y)} :: Up(s, x, y) == [])
    && (forall p :: p in s.udp ==>
          Member(sh, p.dest) && p.dest in s.nodes && InRing(s.nodes[p.dest]) && PlainMsg(p.m))
  }

  ghost predicate OneTokenEach(ch: seq<Msg>) {
    forall i, k :: 0 <= i < k < |ch| && ch[i].Join? && ch[k].Join? ==> ch[i].src != ch[k].src
  }

  ghost predicate TokensOn(ch: seq<Msg>, l: Loc, loc: map<Id, Loc>) {
    && OneTokenEach(ch)
    && forall i :: 0 <= i < |ch| && ch[i].Join? ==> ch[i].src in loc && loc[ch[i].src] == l
  }

  /** Every joiner without an answer has at most one token, at the place loc says. */
  ghost predicate Tokens(s: Net, sh: Shape, loc: map<Id, Loc>) {
    && (forall x, y {:trigger Down(s, x, y)} :: TokensOn(Down(s, x, y), OnLink(x, y), loc))
    && (forall p :: p in s.udp && p.m.Join? ==> p.m.src in loc && loc[p.m.src] == InBag && s.udp[p] == 1)
    && (forall p, q :: p in s.udp && q in s.udp && p.m.Join? && q.m.Join? && p.m.src == q.m.src ==> p == q)
    && (forall j :: j in loc ==> Outsider(s, sh, j))
  }

  ghost predicate Normal(s: Net, sh: Shape, loc: map<Id, Loc>) {
    && Locals(s, sh) && Streams(s, sh) && Tokens(s, sh, loc)
    && 0 !in s.nodes && !s.leaving
  }

  // ---- frame facts ----

  lemma PipeFrame(s: Net, s': Net, b: Id, p: seq<Id>, skip: bool, from: Option<Id>)
    requires PipeOk(s, b, p, skip, from)
    requires forall i :: 0 <= i < |p| ==> Down(s', p[i], b) == Down(s, p[i], b)
    ensures PipeOk(s', b, p, skip, from)
  {
  }

  /** The ring predecessor writes on. */
  lemma PipeWrite(s: Net, s': Net, b: Id, p: seq<Id>, skip: bool, a: Id, m: Msg)
    requires PipeOk(s, b, p, skip, Some(a)) && PlainMsg(m)
    requires forall i :: 0 <= i < |p| - 1 ==> Down(s', p[i], b) == Down(s, p[i], b)
    requires Down(s', a, b) == Down(s, a, b) + [m] && (skip && |p| == 1 ==> Down(s, a, b) != [])
    ensures PipeOk(s', b, p, skip, Some(a))
  {
    forall i | 0 <= i < |p| ensures StreamOk(Rest(Down(s', p[i], b), skip && i == 0), i == |p| - 1) {
      assert StreamOk(Rest(Down(s, p[i], b), skip && i == 0), i == |p| - 1);
      if i == |p| - 1 {
        assert Rest(Down(s', a, b), skip && i == 0) == Rest(Down(s, a, b), skip && i == 0) + [m];
      }
    }
  }

  /** The ring predecessor says NET_CLOSE_CONNECTION: another node takes its place. */
  lemma PipeFinish(s: Net, s': Net, b: Id, p: seq<Id>, skip: bool, a: Id)
    requires PipeOk(s, b, p, skip, Some(a))
    requires forall i :: 0 <= i < |p| - 1 ==> Down(s', p[i], b) == Down(s, p[i], b)
    requires Down(s', a, b) == Down(s, a, b) + [Close] && (skip && |p| == 1 ==> Down(s, a, b) != [])
    ensures PipeOk(s', b, p, skip, None)
  {
    forall i | 0 <= i < |p| ensures StreamOk(Rest(Down(s', p[i], b), skip && i == 0), false) {
      assert StreamOk(Rest(Down(s, p[i], b), skip && i == 0), i == |p| - 1);
      if i == |p| - 1 {
        var ch := Rest(Down(s, a, b), skip && i == 0);
        assert Rest(Down(s', a, b), skip && i == 0) == ch + [Close];
        assert (ch + [Close])[..|ch|] == ch;
      }
    }
  }

  /** A node connects and becomes the ring predecessor. */
  lemma PipeExtend(s: Net, s': Net, b: Id, p: seq<Id>, skip: bool, a: Id)
    requires PipeOk(s, b, p, skip, None) && a !in p
    requires forall i :: 0 <= i < |p| ==> Down(s', p[i], b) == Down(s, p[i], b)
    requires Down(s', a, b) == []
    ensures PipeOk(s', b, p + [a], skip, Some(a))
  {
    var p' := p + [a];
    forall i | 0 <= i < |p'| ensures StreamOk(Rest(Down(s', p'[i], b), skip && i == 0), i == |p'| - 1) {
      assert i < |p| ==> StreamOk(Rest(Down(s, p[i], b), skip && i == 0), false);
    }
  }

  /** The reader takes a plain message, or the answer it waited for, from its first stream. */
  lemma PipeRead(s: Net, s': Net, b: Id, p: seq<Id>, skip: bool, from: Option<Id>)
    requires PipeOk(s, b, p, skip, from) && p != [] && Down(s, p[0], b) != []
    requires skip || PlainMsg(Down(s, p[0], b)[0])
    requires forall i :: 0 < i < |p| ==> Down(s', p[i], b) == Down(s, p[i], b)
    requires Down(s', p[0], b) == Down(s, p[0], b)[1..]
    ensures PipeOk(s', b, p, false, from)
  {
    forall i | 0 <= i < |p| ensures StreamOk(Rest(Down(s', p[i], b), false && i == 0), from.Some? && i == |p| - 1) {
      assert StreamOk(Rest(Down(s, p[i], b), skip && i == 0), from.Some? && i == |p| - 1);
      if i == 0 && !skip {
        PopStream(Down(s, p[0], b), from.Some? && i == |p| - 1);
      }
    }
  }

  lemma PopStream(ch: seq<Msg>, open: bool)
    requires StreamOk(ch, open) && ch != [] && PlainMsg(ch[0])
    ensures StreamOk(ch[1..], open)
  {
    if !open {
      assert ch[1..][..|ch| - 2] == ch[..|ch| - 1][1..];
    }
  }

  /** The reader is done with its first stream, of which nothing is left. */
  lemma PipeDrop(s: Net, s': Net, b: Id, p: seq<Id>, from: Option<Id>)
    requires PipeOk(s, b, p, false, from) && p != [] && Down(s, p[0], b) != [] && Down(s, p[0], b)[0] == Close
    requires forall i :: 0 < i < |p| ==> Down(s', p[i], b) == Down(s, p[i], b)
    ensures PipeOk(s', b, p[1..], false, from)
    ensures |Down(s, p[0], b)| == 1
  {
    var p' := p[1..];
    assert StreamOk(Rest(Down(s, p[0], b), false), from.Some? && 0 == |p| - 1);
    forall i | 0 <= i < |p'| ensures StreamOk(Rest(Down(s', p'[i], b), false && i == 0), from.Some? && i == |p'| - 1) {
      assert p'[i] == p[i + 1];
      assert StreamOk(Rest(Down(s, p[i + 1], b), false && i + 1 == 0), from.Some? && i + 1 == |p| - 1);
    }
  }

  /** A member whose own fields, streams and incoming link are as before stays well. */
  lemma LocalFrame(s: Net, s': Net, sh: Shape, b: Id)
    requires b in sh.nxt && b in sh.prv && b in sh.lo && b in sh.hi && LocalOk(s, sh, b)
    requires b in s'.nodes && s'.nodes[b] == s.nodes[b] && Backlog(s', b) == Backlog(s, b)
    requires LinkFrom(s', sh.prv[b], b) == LinkFrom(s, sh.prv[b], b)
    requires forall x :: x in Pipe(s, b) ==> Down(s', x, b) == Down(s, x, b)
    ensures LocalOk(s', sh, b)
  {
    PipeFrame(s, s', b, Pipe(s, b), !InRing(s.nodes[b]), LinkFrom(s, sh.prv[b], b));
  }
}
