/** What can be reached: every join and every leave that starts in a quiet ring can be run until it has
    drained, and rings of any size up to 256 come about. So no premise of the theorems about drained
    rounds is empty. */
module NetReach {
  import opened Base
  import opened StoreSpec
  import opened NodeSpec
  import opened Network
  import opened Ring
  import opened NetLeave
  import opened NetTheorems
  import opened NetSafety
  import opened NetTokens
  import opened NetRuns
  import opened NetSingle
  import opened NetMap
  import opened NetRounds
  import opened NetRoundTrip
  import opened NetDrainLeave
  import opened NetDrain
  import opened NetDistance

  /** A round that starts with event e. */
  ghost predicate RoundOf(s: Net, e: Event, es: seq<Event>) {
    IsRun(s, es) && es != [] && es[0] == e && Busy(es[1..])
  }

  ghost predicate Drained(s: Net) {
    Quiescent(s) && !s.leaving
  }

  // ---- a round can always go on ----

  lemma {:induction false} BusyIsOneJoin(s: Net, es: seq<Event>)
    requires IsRun(s, es) && Busy(es)
    ensures OneJoinRun(s, es)
    decreases |es|
  {
    hide Enabled, Do;
    if es != [] {
      BusyTail(es);
      BusyIsOneJoin(Do(s, es[0]), es[1..]);
    }
  }

  lemma CleanSettled(s: Net, sh: Shape)
    requires Clean(s, sh)
    ensures Inv(s) && Settled(s)
  {
    CleanIsNormal(s, sh);
    forall b | b in s.nodes ensures InRing(s.nodes[b]) {
      assert Member(sh, b) && CleanNode(s, sh, b);
    }
  }

  /** A round from a quiet ring needs no guard. */
  lemma RoundGuarded(s: Net, sh: Shape, e: Event, es: seq<Event>)
    requires Clean(s, sh) && RoundOf(s, e, es)
    ensures Inv(s) && GuardedRun(s, es) && TokensAlive(s)
  {
    CleanSettled(s, sh);
    assert TokensAlive(s);
    assert AllInRing(s);
    hide Clean, Inv, Settled, Enabled, Do, TokensAlive, AllInRing, OneTruth;
    BusyIsOneJoin(Do(s, e), es[1..]);
    SettledTruth(s);
    OneJoinGuards(s, es);
  }

  lemma RoundInv(s: Net, sh: Shape, e: Event, es: seq<Event>)
    requires Clean(s, sh) && RoundOf(s, e, es)
    ensures Inv(After(s, es)) && TokensAlive(After(s, es))
  {
    hide Clean, Inv, Enabled, Do, TokensAlive;
    RoundGuarded(s, sh, e, es);
    RunInv(s, es);
    RunAlive(s, es);
  }

  lemma RoundGoesOn(s: Net, sh: Shape, e: Event, es: seq<Event>) returns (e': Event)
    requires Clean(s, sh) && RoundOf(s, e, es) && !Drained(After(s, es))
    ensures Enabled(After(s, es), e') && !External(e')
  {
    hide Clean, Inv, Enabled, Do, TokensAlive, Quiescent;
    RoundInv(s, sh, e, es);
    if !CanProgress(After(s, es)) {
      StuckIsQuiescent(After(s, es));
    }
    e' :| Progress(e') && Enabled(After(s, es), e');
  }

  lemma {:induction false} SnocRun(s: Net, es: seq<Event>, e: Event)
    requires IsRun(s, es) && Enabled(After(s, es), e)
    ensures IsRun(s, es + [e]) && After(s, es + [e]) == Do(After(s, es), e)
    decreases |es|
  {
    hide Enabled, Do;
    if es == [] {
      assert es + [e] == [e] && [e][1..] == [];
    } else {
      assert (es + [e])[1..] == es[1..] + [e];
      SnocRun(Do(s, es[0]), es[1..], e);
    }
  }

  lemma SnocRound(s: Net, e: Event, es: seq<Event>, e': Event)
    requires RoundOf(s, e, es) && Enabled(After(s, es), e') && !External(e')
    ensures RoundOf(s, e, es + [e'])
  {
    hide Enabled, Do;
    SnocRun(s, es, e');
    forall i | 0 <= i < |(es + [e'])[1..]| ensures !External((es + [e'])[1..][i]) {
      assert i < |es| - 1 ==> (es + [e'])[1..][i] == es[1..][i];
    }
  }

  /** A round that cannot last longer than some bound can be run to its end. */
  lemma {:induction false} Finish(s: Net, sh: Shape, e: Event, es: seq<Event>, bound: nat) returns (es': seq<Event>)
    requires Clean(s, sh) && RoundOf(s, e, es) && |es| <= bound
    requires forall x {:trigger RoundOf(s, e, x)} :: RoundOf(s, e, x) ==> |x| <= bound
    ensures RoundOf(s, e, es') && Drained(After(s, es'))
    decreases bound - |es|
  {
    if Drained(After(s, es)) {
      es' := es;
    } else {
      hide Drained, Enabled, Clean;
      var e' := RoundGoesOn(s, sh, e, es);
      SnocRound(s, e, es, e');
      es' := Finish(s, sh, e, es + [e'], bound);
    }
  }

  lemma FirstEvent(s: Net, e: Event)
    requires Enabled(s, e)
    ensures RoundOf(s, e, [e])
  {
    hide Do, Enabled;
    assert [e][0] == e && [e][1..] == [];
    assert IsRun(Do(s, e), []);
  }

  /** Every join into a quiet ring of fewer than 256 nodes has a run to its end. */
  lemma JoinCanEnd(s: Net, sh: Shape, e: Event) returns (es: seq<Event>)
    requires Clean(s, sh) && |s.nodes| < 256 && Enabled(s, e) && e.JoinStart?
    ensures JoinRound(s, es) && es[0] == e && Drained(After(s, es))
  {
    hide Clean, Enabled, WillSplit, JoinLength, Drained;
    var i, d, w := SplitterExists(s, sh, e);
    FirstEvent(s, e);
    JoinEndsFor(s, sh, [e], i, d, w);
    var bound := JoinLength(s.nodes[w], |sh.order|, d);
    forall x {:trigger RoundOf(s, e, x)} | RoundOf(s, e, x) ensures |x| <= bound {
      JoinEndsFor(s, sh, x, i, d, w);
    }
    es := Finish(s, sh, e, [e], bound);
  }

  /** Every leave has a run to its end. */
  lemma LeaveCanEnd(s: Net, sh: Shape, e: Event) returns (es: seq<Event>)
    requires Clean(s, sh) && Enabled(s, e) && e.LeaveStart?
    ensures LeaveRound(s, es) && es[0] == e && Drained(After(s, es))
  {
    hide Clean, Enabled, LeaveLength, Drained;
    LeaverMember(s, sh, e);
    FirstEvent(s, e);
    LeaveEnds(s, sh, [e]);
    var bound := LeaveLength(s, sh, e.l);
    forall x {:trigger RoundOf(s, e, x)} | RoundOf(s, e, x) ensures |x| <= bound {
      LeaveEnds(s, sh, x);
    }
    es := Finish(s, sh, e, [e], bound);
  }

  /** The doors are open: while nobody leaves, a client can send any request, and a node can start to join,
      at any node that is in the ring, also at one that waits for a connection. */
  lemma OpenDoors(s: Net, dest: Id, m: Msg, j: Id)
    requires !s.leaving && dest in s.nodes && (s.nodes[dest].mode == Running || s.nodes[dest].mode == AwaitPred)
    requires m.Insert? || m.Remove? || m.Lookup?
    requires j != 0 && j !in s.nodes
    ensures Enabled(s, ClientSend(dest, m)) && Enabled(s, JoinStart(j, dest))
  {
  }

  // ---- rings of any size ----

  lemma {:induction false} SerialConcat(s: Net, es: seq<Event>, es': seq<Event>)
    requires SerialRun(s, es) && SerialRun(After(s, es), es')
    ensures SerialRun(s, es + es') && After(s, es + es') == After(After(s, es), es')
    decreases |es|
  {
    hide Enabled, Do, Quiescent;
    if es == [] {
      assert es + es' == es';
    } else {
      assert (es + es')[1..] == es[1..] + es';
      SerialConcat(Do(s, es[0]), es[1..], es');
    }
  }

  lemma RoundFromQuietIsSerial(s: Net, e: Event, es: seq<Event>)
    requires Quiescent(s) && RoundOf(s, e, es)
    ensures SerialRun(s, es)
  {
    hide Enabled, Do, Quiescent;
    RoundIsSerial(Do(s, e), es[1..]);
  }

  /** One node more: its join runs to its end and splits some node w. */
  lemma OneMore(s: Net, sh: Shape, entry: Id, j: Id) returns (es: seq<Event>, sh': Shape, w: Id)
    requires Clean(s, sh) && |s.nodes| < 256 && entry in s.nodes && j !in s.nodes && j != 0
    ensures JoinRound(s, es) && es[0] == JoinStart(j, entry) && SerialRun(s, es) && GuardedRun(s, es)
    ensures Drained(After(s, es)) && After(s, es).nodes.Keys == s.nodes.Keys + {j}
    ensures Clean(After(s, es), sh') && IsInsertion(sh, sh', w, j)
  {
    hide Clean, Enabled, Do, Quiescent, IsInsertion;
    CleanCanStart(s, sh, entry, j);
    es := JoinCanEnd(s, sh, JoinStart(j, entry));
    RoundGuarded(s, sh, JoinStart(j, entry), es);
    RoundFromQuietIsSerial(s, JoinStart(j, entry), es);
    var i;
    sh', i := JoinDrained(s, sh, es);
    w :| IsInsertion(sh, sh', w, j);
    InsertionKeys(sh, sh', w, j);
    CleanKeys(s, sh);
    CleanKeys(After(s, es), sh');
  }

  lemma CleanKeys(s: Net, sh: Shape)
    requires Clean(s, sh)
    ensures s.nodes.Keys == sh.nxt.Keys
  {
    hide ShapeOk;
  }

  lemma CleanCanStart(s: Net, sh: Shape, entry: Id, j: Id)
    requires Clean(s, sh) && entry in s.nodes && j !in s.nodes && j != 0
    ensures Enabled(s, JoinStart(j, entry)) && Quiescent(s)
  {
    forall b | b in s.nodes ensures s.nodes[b].mode == Running && Backlog(s, b) == [] {
      assert Member(sh, b) && CleanNode(s, sh, b);
    }
  }

  ghost predicate Exactly(s: Net, ids: seq<Id>) {
    forall b :: b in s.nodes <==> b in ids
  }

  lemma {:induction false} Grow(ids: seq<Id>, k: nat) returns (es: seq<Event>, sh: Shape)
    requires 0 < k <= |ids| <= 256 && Distinct(ids) && 0 !in ids
    ensures SerialRun(Initial(ids[0]), es)
    ensures Clean(After(Initial(ids[0]), es), sh) && Exactly(After(Initial(ids[0]), es), ids[..k])
  {
    hide Clean, Linked;
    if k == 1 {
      es := [];
      sh := InitialClean(ids[0]);
      assert ids[..1] == [ids[0]];
    } else {
      hide Clean, Initial, SerialRun, After, Exactly;
      var es0, sh0 := Grow(ids, k - 1);
      es, sh := GrowOnce(ids, k - 1, es0, sh0);
    }
  }

  lemma GrowOnce(ids: seq<Id>, k: nat, es: seq<Event>, sh: Shape) returns (es': seq<Event>, sh': Shape)
    requires 0 < k < |ids| <= 256 && Distinct(ids) && 0 !in ids
    requires SerialRun(Initial(ids[0]), es)
    requires Clean(After(Initial(ids[0]), es), sh) && Exactly(After(Initial(ids[0]), es), ids[..k])
    ensures SerialRun(Initial(ids[0]), es')
    ensures Clean(After(Initial(ids[0]), es'), sh') && Exactly(After(Initial(ids[0]), es'), ids[..k + 1])
  {
    hide Clean, Initial, SerialRun, After, Exactly, Distinct;
    var s0 := Initial(ids[0]);
    var s := After(s0, es);
    NextId(s, ids, k);
    var es1, w;
    es1, sh', w := OneMore(s, sh, ids[0], ids[k]);
    SerialConcat(s0, es, es1);
    es' := es + es1;
    ExactlyGrows(s, After(s0, es'), ids, k);
  }

  lemma NextId(s: Net, ids: seq<Id>, k: nat)
    requires 0 < k < |ids| <= 256 && Distinct(ids) && 0 !in ids && Exactly(s, ids[..k])
    ensures |s.nodes| < 256 && ids[0] in s.nodes && ids[k] !in s.nodes && ids[k] != 0
  {
    CountNodes(s, ids[..k]);
    assert ids[..k][0] == ids[0];
    assert ids[k] in ids;
  }

  lemma ExactlyGrows(s: Net, s': Net, ids: seq<Id>, k: nat)
    requires k < |ids| && Exactly(s, ids[..k]) && s'.nodes.Keys == s.nodes.Keys + {ids[k]}
    ensures Exactly(s', ids[..k + 1])
  {
    assert ids[..k + 1] == ids[..k] + [ids[k]];
    forall b ensures b in s'.nodes <==> b in ids[..k + 1] {
      assert b in s'.nodes.Keys <==> b in s.nodes.Keys || b == ids[k];
    }
  }

  lemma CountNodes(s: Net, ids: seq<Id>)
    requires Distinct(ids) && Exactly(s, ids)
    ensures |s.nodes| == |ids|
  {
    CardinalityOfOrder(ids, s.nodes.Keys);
    assert |s.nodes| == |s.nodes.Keys|;
  }

  /** Any 1 to 256 nodes form a ring by some serial run. */
  lemma RingOfAnySize(ids: seq<Id>) returns (es: seq<Event>)
    requires 0 < |ids| <= 256 && Distinct(ids) && 0 !in ids
    ensures SerialRun(Initial(ids[0]), es)
    ensures Drained(After(Initial(ids[0]), es)) && Exactly(After(Initial(ids[0]), es), ids)
  {
    hide Initial;
    var sh;
    es, sh := Grow(ids, |ids|);
    assert ids[..|ids|] == ids;
    CleanIsDrained(After(Initial(ids[0]), es), sh);
  }

  lemma CleanIsDrained(s: Net, sh: Shape)
    requires Clean(s, sh)
    ensures Drained(s)
  {
    forall b | b in s.nodes ensures s.nodes[b].mode == Running && Backlog(s, b) == [] {
      assert Member(sh, b) && CleanNode(s, sh, b);
    }
  }

  // ---- a visit ----

  /** What a join followed by the joiner's leave does: both are serial, guarded rounds that drain. */
  ghost predicate Visit(s: Net, j: Id, entry: Id, es1: seq<Event>, es2: seq<Event>) {
    && JoinRound(s, es1) && es1[0] == JoinStart(j, entry) && SerialRun(s, es1) && GuardedRun(s, es1)
    && var s1 := After(s, es1);
       && Drained(s1) && s1.nodes.Keys == s.nodes.Keys + {j}
       && LeaveRound(s1, es2) && es2[0] == LeaveStart(j) && SerialRun(s1, es2) && GuardedRun(s1, es2)
       && Drained(After(s1, es2))
  }

  lemma JoinerCanLeave(s: Net, sh: Shape, j: Id, b: Id)
    requires Clean(s, sh) && j in s.nodes && b in s.nodes && b != j
    ensures Enabled(s, LeaveStart(j))
  {
    CleanIsDrained(s, sh);
    assert Member(sh, j) && Member(sh, b) && CleanNode(s, sh, j);
    AloneIff(sh, j);
    var i := IndexOf(sh, b);
    var k := IndexOf(sh, j);
  }

  /** From any quiet ring that a serial run leads to, and that has room, any other node can join through
      any entry node, and leave again, each until everything has drained; then every node is as it was. */
  lemma JoinAndLeave(id: Id, es: seq<Event>, j: Id, entry: Id) returns (es1: seq<Event>, es2: seq<Event>)
    requires id != 0 && SerialRun(Initial(id), es)
    requires var s := After(Initial(id), es);
             Drained(s) && |s.nodes| < 256 && entry in s.nodes && j !in s.nodes && j != 0
    ensures var s := After(Initial(id), es);
            && Visit(s, j, entry, es1, es2)
            && var s2 := After(After(s, es1), es2);
               && s2.nodes.Keys == s.nodes.Keys && forall b :: b in s.nodes ==> SameNode(s.nodes[b], s2.nodes[b])
  {
    hide Initial, SerialRun, GuardedRun, After, Quiescent, Enabled, Do, SerialInv, Clean, IsInsertion;
    var s := After(Initial(id), es);
    var t := SerialState(id, es);
    var sh := SerialClean(s, t);
    var sh', w;
    es1, sh', w := OneMore(s, sh, entry, j);
    var s1 := After(s, es1);
    JoinerCanLeave(s1, sh', j, entry);
    es2 := LeaveCanEnd(s1, sh', LeaveStart(j));
    RoundGuarded(s1, sh', LeaveStart(j), es2);
    RoundFromQuietIsSerial(s1, LeaveStart(j), es2);
    JoinThenLeave(id, es, es1, es2);
  }

  lemma SerialClean(s: Net, t: Table) returns (sh: Shape)
    requires SerialInv(s, t, None) && Drained(s)
    ensures Clean(s, sh)
  {
    hide Quiescent, Clean, OneTruth, DataInv, Inv;
    sh := QuietNormal(s);
  }

  // ---- requests ----

  /** The reader of a request on its way can read it. */
  lemma AskingEvent(s: Net, sh: Shape, m: Msg, b: Id) returns (e: Event)
    requires OnTheWay(s, sh, m, b)
    ensures Enabled(s, e) && !External(e)
  {
    hide Tiles;
    assert CleanNode(s, sh, b);
    if s.udp == multiset{} {
      e := RecvPred(b);
    } else {
      e := RecvUdp(Packet(b, m));
    }
  }

  lemma NotOwnerIsFar(s: Net, sh: Shape, m: Msg, b: Id)
    requires OnTheWay(s, sh, m, b) && b in s.nodes && !Owns(s.nodes[b], m.k)
    ensures Far(sh, sh.nxt[b], Owners(sh, m.k)) < Far(sh, b, Owners(sh, m.k))
  {
    hide Tiles, Far, OnlyMessage;
    assert CleanNode(s, sh, b);
    WayShape(s, sh, m, b);
    var c := SomeOwner(sh, m.k);
    FarStep(sh, b, Owners(sh, m.k), c);
  }

  lemma WayShape(s: Net, sh: Shape, m: Msg, b: Id)
    requires OnTheWay(s, sh, m, b)
    ensures ShapeOk(sh)
  {
  }

  lemma SerialOn(s: Net, e: Event, es: seq<Event>)
    requires Enabled(s, e) && (External(e) ==> Quiescent(s)) && SerialRun(Do(s, e), es) && Busy(es)
    ensures var all := [e] + es;
            && all[0] == e && all[1..] == es && SerialRun(s, all) && After(s, all) == After(Do(s, e), es)
            && Replies(s, all) == ReplyIn(s, e) + Replies(Do(s, e), es) && (!External(e) ==> Busy(all))
  {
    hide Enabled, Do, Quiescent, ReplyIn;
    var all := [e] + es;
    assert all[0] == e && all[1..] == es;
    if !External(e) {
      forall i | 0 <= i < |all| ensures !External(all[i]) {
        assert i > 0 ==> all[i] == es[i - 1];
      }
    }
  }

  /** A request on its way can be brought to its owner, which answers it from the map. */
  lemma {:induction false} AskedToEnd(s: Net, sh: Shape, m: Msg, b: Id, t: Table) returns (es: seq<Event>)
    requires Asking(s, sh, m, b, t)
    ensures SerialRun(s, es) && Busy(es) && Replies(s, es) == AnswerTo(t, m)
    ensures Clean(After(s, es), sh) && Agrees(After(s, es), Apply(t, m))
    decreases Far(sh, b, Owners(sh, m.k))
  {
    hide Enabled, Do, Quiescent, InOrder, OnlyMessage, Clean, Agrees, ReplyIn, Far, Owners;
    var e := AskingEvent(s, sh, m, b);
    AskingStep(s, sh, m, b, t, e);
    var s' := Do(s, e);
    if Owns(s.nodes[b], m.k) {
      es := [e] + [];
      SerialOn(s, e, []);
      assert AnswerTo(t, m) + [] == AnswerTo(t, m);
    } else {
      NotOwnerIsFar(s, sh, m, b);
      var rest := AskedToEnd(s', sh, m, sh.nxt[b], t);
      es := [e] + rest;
      SerialOn(s, e, rest);
      assert [] + Replies(s', rest) == Replies(s', rest);
    }
  }

  /** Every request can be asked: after any serial run that has drained, any client can send any request to
      any node, and it has a run to its end, with the answer of the map and the map's entries afterwards. */
  lemma RequestCanEnd(id: Id, es: seq<Event>, dest: Id, m: Msg) returns (es': seq<Event>)
    requires id != 0 && SerialRun(Initial(id), es) && Drained(After(Initial(id), es))
    requires dest in After(Initial(id), es).nodes && IsRequest(m)
    ensures var s, t := After(Initial(id), es), TableAfter(map[], es);
            && es' != [] && es'[0] == ClientSend(dest, m) && SerialRun(s, es') && Busy(es'[1..])
            && Drained(After(s, es')) && Replies(s, es') == AnswerTo(t, m) && Agrees(After(s, es'), Apply(t, m))
  {
    hide Initial, SerialRun, After, Enabled, Do, SerialInv, Clean, Agrees, Quiescent, OnTheWay, ReplyIn;
    var s := After(Initial(id), es);
    var t := SerialState(id, es);
    var sh := SerialClean(s, t);
    RingIsAMap(id, es);
    var e := ClientSend(dest, m);
    AnyoneCanAsk(s, sh, dest, m);
    AskClean(s, sh, e);
    AskedAgrees(s, Do(s, e), t);
    var rest := AskedToEnd(Do(s, e), sh, m, dest, t);
    es' := [e] + rest;
    SerialOn(s, e, rest);
    NoReplyToSend(s, e);
    assert [] + Replies(Do(s, e), rest) == Replies(Do(s, e), rest);
    CleanIsDrained(After(s, es'), sh);
  }

  lemma AnyoneCanAsk(s: Net, sh: Shape, dest: Id, m: Msg)
    requires Clean(s, sh) && dest in s.nodes && IsRequest(m)
    ensures Enabled(s, ClientSend(dest, m)) && Quiescent(s)
  {
    CleanIsDrained(s, sh);
    assert Member(sh, dest) && CleanNode(s, sh, dest);
  }

  lemma AskedAgrees(s: Net, s': Net, t: Table)
    requires Agrees(s, t) && s'.nodes == s.nodes
    ensures Agrees(s', t)
  {
  }

  lemma NoReplyToSend(s: Net, e: Event)
    requires Enabled(s, e) && e.ClientSend?
    ensures ReplyIn(s, e) == []
  {
  }
}
