/** A leave loses no data: its steps move copies from the leaver to the heir and drop none. */
module NetLeaveData {
  import opened Base
  import opened Ranges
  import opened StoreSpec
  import opened NodeSpec
  import opened Network
  import opened Ring
  import opened NetInv
  import opened NetData
  import opened NetLeave
  import opened NetTail

  /** At most one stream in each direction has anything on it. */
  ghost predicate TwoStreams(s: Net, a: Id, b: Id, ds: seq<Msg>, c: Id, d: Id, us: seq<Msg>) {
    && s.udp == multiset{}
    && (forall x: Id, y: Id {:trigger Down(s, x, y)} :: Down(s, x, y) == if (x, y) == (a, b) then ds else [])
    && (forall x: Id, y: Id {:trigger Up(s, x, y)} :: Up(s, x, y) == if (x, y) == (c, d) then us else [])
  }

  ghost predicate SameTables(s: Net, s': Net) {
    && (forall x :: x in s.nodes ==> x in s'.nodes && s'.nodes[x].store == s.nodes[x].store)
    && (forall x :: x in s'.nodes ==> x in s.nodes)
  }

  lemma TwoStreamsCarry(s: Net, a: Id, b: Id, ds: seq<Msg>, c: Id, d: Id, us: seq<Msg>, m: Msg)
    requires TwoStreams(s, a, b, ds, c, d, us)
    ensures Carried(s, m) <==> m in ds || m in us
  {
    assert !OnUdp(s, m);
    if m in ds {
      assert m in Down(s, a, b);
    }
    if m in us {
      assert m in Up(s, c, d);
    }
  }

  /** Only control messages are in flight before and after, and no table changed. */
  lemma ControlOnly(s: Net, s': Net, e: Event, a: Id, b: Id, ds: seq<Msg>, us: seq<Msg>, ds': seq<Msg>, us': seq<Msg>,
                    c: Id, d: Id, k: Ssn, v: Value, m0: Msg)
    requires TwoStreams(s, a, b, ds, c, d, us) && TwoStreams(s', a, b, ds', c, d, us')
    requires IsRequest(m0) && !e.ClientSend?
    requires forall m :: m in ds || m in us || m in ds' || m in us' ==> !IsRequest(m)
    requires SameTables(s, s')
    ensures DataStep(s, s', e, k, v, m0)
  {
    TwoStreamsCarry(s, a, b, ds, c, d, us, m0);
    TwoStreamsCarry(s', a, b, ds', c, d, us', m0);
    TwoStreamsCarry(s, a, b, ds, c, d, us, Insert(k, v));
    TwoStreamsCarry(s', a, b, ds', c, d, us', Insert(k, v));
    SameStored(s, s', k, v);
    assert Copy(s, k, v) ==> Copy(s', k, v);
  }

  lemma OfferData(q: Net, sh: Shape, l: Id, k: Ssn, v: Value, m0: Msg)
    requires Clean(q, sh) && Enabled(q, LeaveStart(l)) && IsRequest(m0)
    ensures DataStep(q, Do(q, LeaveStart(l)), LeaveStart(l), k, v, m0)
  {
    hide Do, Quiescent;
    OfferEffect(q, sh, l);
    var n := q.nodes[l];
    var m := [NewRange(n.lo, n.hi)];
    ControlOnly(q, Do(q, LeaveStart(l)), LeaveStart(l), l, sh.nxt[l], [], [], if n.lo == 0 then m else [],
                if n.lo != 0 then m else [], sh.prv[l], l, k, v, m0);
  }

  /** The offer is all there is on the streams, then the answer to it. */
  lemma OfferStreams(q: Net, s: Net, sh: Shape, l: Id)
    requires l in sh.nxt && l in sh.prv && l in q.nodes && Offered(q, s, sh, l)
    ensures var offer := [NewRange(q.nodes[l].lo, q.nodes[l].hi)];
            && (q.nodes[l].lo == 0 ==> TwoStreams(s, l, sh.nxt[l], offer, l, sh.nxt[l], []))
            && (q.nodes[l].lo != 0 ==> TwoStreams(s, sh.prv[l], l, [], sh.prv[l], l, offer))
  {
  }

  lemma AnswerStreams(q: Net, s: Net, sh: Shape, sh': Shape, l: Id)
    requires l in sh.nxt && l in sh.prv && l in sh.lo && l in q.nodes && Heir(sh, l) in q.nodes
    requires Heir(sh, l) in sh'.lo && Heir(sh, l) in sh'.hi && Answered(q, s, sh, sh', l)
    ensures sh.lo[l] == 0 ==> TwoStreams(s, l, sh.nxt[l], [], l, sh.nxt[l], [NewRangeResponse])
    ensures sh.lo[l] != 0 ==> TwoStreams(s, sh.prv[l], l, [NewRangeResponse], sh.prv[l], l, [])
  {
  }

  lemma AnswerDownStreams(q: Net, s: Net, sh: Shape, sh': Shape, l: Id)
    requires LeaveSetting(q, sh, l) && ShapeOk(sh') && IsRemoval(sh, sh', l) && Offered(q, s, sh, l) && sh.lo[l] == 0
    ensures Enabled(s, HeirReads(sh, l)) && SameTables(s, Do(s, HeirReads(sh, l)))
    ensures TwoStreams(s, l, sh.nxt[l], [NewRange(q.nodes[l].lo, q.nodes[l].hi)], l, sh.nxt[l], [])
    ensures TwoStreams(Do(s, HeirReads(sh, l)), l, sh.nxt[l], [], l, sh.nxt[l], [NewRangeResponse])
  {
    hide Do, Enabled, Faults, SameTables, IsRemoval, ShapeOk, Offered, Answered, TwoStreams;
    LeaverRange(q, sh, l);
    AnswerDown(q, s, sh, sh', l);
    OfferStreams(q, s, sh, l);
    AnswerStreams(q, Do(s, HeirReads(sh, l)), sh, sh', l);
    AnsweredStores(q, s, Do(s, HeirReads(sh, l)), sh, sh', l);
  }

  lemma AnswerUpStreams(q: Net, s: Net, sh: Shape, sh': Shape, l: Id)
    requires LeaveSetting(q, sh, l) && ShapeOk(sh') && IsRemoval(sh, sh', l) && Offered(q, s, sh, l) && sh.lo[l] != 0
    ensures Enabled(s, HeirReads(sh, l)) && SameTables(s, Do(s, HeirReads(sh, l)))
    ensures TwoStreams(s, sh.prv[l], l, [], sh.prv[l], l, [NewRange(q.nodes[l].lo, q.nodes[l].hi)])
    ensures TwoStreams(Do(s, HeirReads(sh, l)), sh.prv[l], l, [NewRangeResponse], sh.prv[l], l, [])
  {
    hide Do, Enabled, Faults, SameTables, IsRemoval, ShapeOk, Offered, Answered, TwoStreams;
    LeaverRange(q, sh, l);
    AnswerUp(q, s, sh, sh', l);
    OfferStreams(q, s, sh, l);
    AnswerStreams(q, Do(s, HeirReads(sh, l)), sh, sh', l);
    AnsweredStores(q, s, Do(s, HeirReads(sh, l)), sh, sh', l);
  }

  lemma AnswerDownData(q: Net, s: Net, sh: Shape, sh': Shape, l: Id, k: Ssn, v: Value, m0: Msg)
    requires LeaveSetting(q, sh, l) && ShapeOk(sh') && IsRemoval(sh, sh', l) && Offered(q, s, sh, l) && IsRequest(m0)
    requires sh.lo[l] == 0
    ensures Enabled(s, HeirReads(sh, l)) && DataStep(s, Do(s, HeirReads(sh, l)), HeirReads(sh, l), k, v, m0)
  {
    hide DataStep, Tiles, StoreOk, KeysWithin, SameTables, Linked, Do, CleanNode, TwoStreams;
    AnswerDownStreams(q, s, sh, sh', l);
    ControlOnly(s, Do(s, HeirReads(sh, l)), HeirReads(sh, l), l, sh.nxt[l],
                [NewRange(q.nodes[l].lo, q.nodes[l].hi)], [], [], [NewRangeResponse], l, sh.nxt[l], k, v, m0);
  }

  lemma AnswerUpData(q: Net, s: Net, sh: Shape, sh': Shape, l: Id, k: Ssn, v: Value, m0: Msg)
    requires LeaveSetting(q, sh, l) && ShapeOk(sh') && IsRemoval(sh, sh', l) && Offered(q, s, sh, l) && IsRequest(m0)
    requires sh.lo[l] != 0
    ensures Enabled(s, HeirReads(sh, l)) && DataStep(s, Do(s, HeirReads(sh, l)), HeirReads(sh, l), k, v, m0)
  {
    hide DataStep, Tiles, StoreOk, KeysWithin, Do, Linked, CleanNode, SameTables;
    AnswerUpStreams(q, s, sh, sh', l);
    ControlOnly(s, Do(s, HeirReads(sh, l)), HeirReads(sh, l), sh.prv[l], l,
                [], [NewRange(q.nodes[l].lo, q.nodes[l].hi)], [NewRangeResponse], [], sh.prv[l], l, k, v, m0);
  }

  lemma AnsweredStores(q: Net, s: Net, s': Net, sh: Shape, sh': Shape, l: Id)
    requires LeaveSetting(q, sh, l) && Offered(q, s, sh, l)
    requires Heir(sh, l) in q.nodes && Heir(sh, l) in sh'.lo && Heir(sh, l) in sh'.hi && Answered(q, s', sh, sh', l)
    ensures SameTables(s, s')
  {
  }

  lemma LastWordsMembers(n: Node, m: Msg)
    requires StoreOk(n.store) && IsRequest(m)
    ensures m in LastDown(n) || m in LastUp(n) <==> m.Insert? && HoldsAt(n, m.k, m.v)
  {
    InsertsMembers(n.store.keys, n.store.vals);
    var ins := Inserts(n.store.keys, n.store.vals);
    assert m in ins <==> m.Insert? && HoldsAt(n, m.k, m.v);
    assert m in ins + [Close] <==> m in ins;
    assert m in ins + [Leaving(n.succAddr)] <==> m in ins;
    assert LastDown(n) == ins + [Close] || LastDown(n) == [] + [Close];
    assert LastUp(n) == ins + [Leaving(n.succAddr)] || LastUp(n) == [] + [Leaving(n.succAddr)];
  }

  lemma FarewellStored(s: Net, s': Net, l: Id, k: Ssn, v: Value)
    requires l in s.nodes && s'.nodes == s.nodes - {l}
    ensures Stored(s, k, v) <==> Stored(s', k, v) || HoldsAt(s.nodes[l], k, v)
  {
    hide HoldsAt;
    if Stored(s', k, v) {
      var a :| a in s'.nodes && HoldsAt(s'.nodes[a], k, v);
      assert HoldsAt(s.nodes[a], k, v);
    }
    if Stored(s, k, v) {
      var a :| a in s.nodes && HoldsAt(s.nodes[a], k, v);
      assert a != l ==> HoldsAt(s'.nodes[a], k, v);
    }
  }

  /** The farewell turns the leaver's entries into VAL_INSERTs. */
  lemma FarewellData(s: Net, s': Net, e: Event, l: Id, p: Id, o: Id, k: Ssn, v: Value, m0: Msg)
    requires Departed(s, s', l, p, o) && StoreOk(s.nodes[l].store)
    requires IsRequest(m0) && !e.ClientSend? && s.udp == multiset{}
    requires !Carried(s, Insert(k, v))
    ensures DataStep(s, s', e, k, v, m0)
  {
    hide Stored, OnDown, OnUp, OnUdp, HoldsAt, LastDown, LastUp, StoreOk;
    var n := s.nodes[l];
    assert TwoStreams(s', l, o, LastDown(n), p, l, LastUp(n));
    hide TwoStreams;
    TwoStreamsCarry(s', l, o, LastDown(n), p, l, LastUp(n), m0);
    TwoStreamsCarry(s', l, o, LastDown(n), p, l, LastUp(n), Insert(k, v));
    LastWordsMembers(n, m0);
    LastWordsMembers(n, Insert(k, v));
    FarewellStored(s, s', l, k, v);
    if m0.Insert? {
      FarewellStored(s, s', l, m0.k, m0.v);
    }
    assert Copy(s, k, v) ==> Copy(s', k, v);
  }

  lemma FarewellStepData(q: Net, s: Net, sh: Shape, sh': Shape, l: Id, k: Ssn, v: Value, m0: Msg)
    requires AnsweredSetting(q, s, sh, sh', l) && IsRequest(m0)
    ensures Enabled(s, LeaverReads(sh, l)) && DataStep(s, Do(s, LeaverReads(sh, l)), LeaverReads(sh, l), k, v, m0)
  {
    hide DataStep, Tiles, StoreOk, KeysWithin, IsRemoval, UpdateRange, Do, KeepLower, Enabled;
    FarewellEffect(q, s, sh, sh', l);
    assert CleanNode(q, sh, l);
    var r := [NewRangeResponse];
    TwoStreamsCarry(s, sh.prv[l], l, if sh.lo[l] != 0 then r else [],
                    l, sh.nxt[l], if sh.lo[l] == 0 then r else [], Insert(k, v));
    FarewellData(s, Do(s, LeaverReads(sh, l)), LeaverReads(sh, l), l, sh.prv[l], sh.nxt[l], k, v, m0);
  }

  // ---- the tail ----

  /** The heir's table: nothing else comes in, no key goes out. */
  lemma AbsorbStored(s: Net, s': Net, b: Id, m: Msg, k: Ssn, v: Value) returns (v': Value)
    requires Absorbed(s, s', b, m)
    ensures Stored(s', k, v) ==> Stored(s, k, v) || m == Insert(k, v)
    ensures Stored(s, k, v) ==> Stored(s', k, v')
    ensures m == Insert(k, v) ==> Stored(s', k, v)
  {
    v' := v;
    if Stored(s', k, v) {
      var x :| x in s'.nodes && HoldsAt(s'.nodes[x], k, v);
      assert x != b || m != Insert(k, v) ==> HoldsAt(s.nodes[x], k, v);
    }
    if Stored(s, k, v) {
      var x :| x in s.nodes && HoldsAt(s.nodes[x], k, v);
      v' := if x == b && m.k == k then m.v else v;
      assert HoldsAt(s'.nodes[x], k, v');
    }
    if m == Insert(k, v) {
      assert HoldsAt(s'.nodes[b], k, v);
    }
  }

  /** The reader stores the entry it takes from one of the two streams. */
  lemma AbsorbData(s: Net, s': Net, e: Event, b: Id, m: Msg, a: Id, c: Id, ds: seq<Msg>, us: seq<Msg>,
                   d: Id, f: Id, ds': seq<Msg>, us': seq<Msg>, k: Ssn, v: Value, m0: Msg)
    requires TwoStreams(s, a, c, ds, d, f, us) && TwoStreams(s', a, c, ds', d, f, us')
    requires IsRequest(m0) && !e.ClientSend?
    requires (ds == [m] + ds' && us == us') || (us == [m] + us' && ds == ds')
    requires Absorbed(s, s', b, m)
    ensures DataStep(s, s', e, k, v, m0)
  {
    hide TwoStreams, OnDown, OnUp, OnUdp, Stored, Absorbed;
    TwoStreamsCarry(s, a, c, ds, d, f, us, m0);
    TwoStreamsCarry(s', a, c, ds', d, f, us', m0);
    TwoStreamsCarry(s, a, c, ds, d, f, us, Insert(k, v));
    TwoStreamsCarry(s', a, c, ds', d, f, us', Insert(k, v));
    var v' := AbsorbStored(s, s', b, m, k, v);
    assert Stored(s, k, v) ==> Copy(s', k, v');
    assert m == Insert(k, v) ==> Copy(s', k, v);
    assert Carried(s, Insert(k, v)) && m != Insert(k, v) ==> Copy(s', k, v);
  }

  lemma TailTwoStreams(s: Net, sh: Shape, l: Id, p: Id, o: Id)
    requires Tail(s, sh, l, p, o)
    ensures TwoStreams(s, l, o, Down(s, l, o), p, l, Up(s, p, l))
    ensures forall i :: 0 <= i < |Down(s, l, o)| ==>
              Down(s, l, o)[i].Insert? || (i == |Down(s, l, o)| - 1 && Down(s, l, o)[i] == Close)
    ensures forall i :: 0 <= i < |Up(s, p, l)| ==>
              Up(s, p, l)[i].Insert? || (i == |Up(s, p, l)| - 1 && Up(s, p, l)[i] == Leaving(o))
  {
  }

  lemma AbsorbDownData(s: Net, sh: Shape, l: Id, p: Id, o: Id, k: Ssn, v: Value, m0: Msg)
    requires Tail(s, sh, l, p, o) && Enabled(s, RecvPred(o)) && Down(s, l, o)[0].Insert? && IsRequest(m0)
    ensures DataStep(s, Do(s, RecvPred(o)), RecvPred(o), k, v, m0)
  {
    hide DataStep, Tiles, InSide, OutSide, Tail, Receive;
    var e := RecvPred(o);
    var s' := Do(s, e);
    AbsorbDownEffect(s, sh, l, p, o);
    AbsorbDownOk(s, sh, l, p, o);
    TailTwoStreams(s, sh, l, p, o);
    TailTwoStreams(s', sh, l, p, o);
    var ds := Down(s, l, o);
    assert Down(s', l, o) == ds[1..] && Up(s', p, l) == Up(s, p, l);
    assert ds == [ds[0]] + ds[1..];
    AbsorbData(s, s', e, o, ds[0], l, o, ds, Up(s, p, l), p, l, Down(s', l, o), Up(s', p, l), k, v, m0);
  }

  lemma AbsorbUpData(s: Net, sh: Shape, l: Id, p: Id, o: Id, k: Ssn, v: Value, m0: Msg)
    requires Tail(s, sh, l, p, o) && Enabled(s, RecvSucc(p)) && Up(s, p, l)[0].Insert? && IsRequest(m0)
    ensures DataStep(s, Do(s, RecvSucc(p)), RecvSucc(p), k, v, m0)
  {
    hide DataStep, Tiles, InSide, OutSide, Tail;
    var e := RecvSucc(p);
    var s' := Do(s, e);
    AbsorbUpEffect(s, sh, l, p, o);
    AbsorbUpOk(s, sh, l, p, o);
    TailTwoStreams(s, sh, l, p, o);
    TailTwoStreams(s', sh, l, p, o);
    var us := Up(s, p, l);
    assert Up(s', p, l) == us[1..] && Down(s', l, o) == Down(s, l, o);
    assert us == [us[0]] + us[1..];
    AbsorbData(s, s', e, p, us[0], l, o, Down(s, l, o), us, p, l, Down(s', l, o), Up(s', p, l), k, v, m0);
  }

  /** A last word or an accept moves no data. */
  lemma WordData(s: Net, s': Net, e: Event, a: Id, b: Id, ds: seq<Msg>, c: Id, d: Id, us: seq<Msg>,
                 ds': seq<Msg>, us': seq<Msg>, k: Ssn, v: Value, m0: Msg)
    requires TwoStreams(s, a, b, ds, c, d, us) && TwoStreams(s', a, b, ds', c, d, us')
    requires IsRequest(m0) && !e.ClientSend?
    requires forall m :: IsRequest(m) ==> (m in ds' <==> m in ds) && (m in us' <==> m in us)
    requires SameTables(s, s')
    ensures DataStep(s, s', e, k, v, m0)
  {
    TwoStreamsCarry(s, a, b, ds, c, d, us, m0);
    TwoStreamsCarry(s', a, b, ds', c, d, us', m0);
    TwoStreamsCarry(s, a, b, ds, c, d, us, Insert(k, v));
    TwoStreamsCarry(s', a, b, ds', c, d, us', Insert(k, v));
    SameStored(s, s', k, v);
    assert Copy(s, k, v) ==> Copy(s', k, v);
  }

  lemma LastDownStreams(s: Net, sh: Shape, l: Id, p: Id, o: Id)
    requires Tail(s, sh, l, p, o) && Enabled(s, RecvPred(o)) && !Down(s, l, o)[0].Insert?
    ensures TwoStreams(s, l, o, [Close], p, l, Up(s, p, l))
    ensures TwoStreams(Do(s, RecvPred(o)), l, o, [], p, l, Up(s, p, l))
    ensures SameTables(s, Do(s, RecvPred(o)))
  {
    hide Do, Tail;
    LastDownEffect(s, sh, l, p, o);
    TailTwoStreams(s, sh, l, p, o);
  }

  lemma LastUpStreams(s: Net, sh: Shape, l: Id, p: Id, o: Id)
    requires Tail(s, sh, l, p, o) && Enabled(s, RecvSucc(p)) && !Up(s, p, l)[0].Insert?
    ensures TwoStreams(s, l, o, Down(s, l, o), p, l, [Leaving(o)])
    ensures TwoStreams(Do(s, RecvSucc(p)), l, o, Down(s, l, o), p, l, [])
    ensures SameTables(s, Do(s, RecvSucc(p)))
  {
    hide Tail, Do, Enabled;
    LastUpEffect(s, sh, l, p, o);
    TailTwoStreams(s, sh, l, p, o);
  }

  lemma LastDownData(s: Net, sh: Shape, l: Id, p: Id, o: Id, k: Ssn, v: Value, m0: Msg)
    requires Tail(s, sh, l, p, o) && Enabled(s, RecvPred(o)) && !Down(s, l, o)[0].Insert? && IsRequest(m0)
    ensures DataStep(s, Do(s, RecvPred(o)), RecvPred(o), k, v, m0)
  {
    hide DataStep, Tiles, InSide, OutSide;
    LastDownStreams(s, sh, l, p, o);
    WordData(s, Do(s, RecvPred(o)), RecvPred(o), l, o, [Close], p, l, Up(s, p, l), [], Up(s, p, l), k, v, m0);
  }

  lemma LastUpData(s: Net, sh: Shape, l: Id, p: Id, o: Id, k: Ssn, v: Value, m0: Msg)
    requires Tail(s, sh, l, p, o) && Enabled(s, RecvSucc(p)) && !Up(s, p, l)[0].Insert? && IsRequest(m0)
    ensures DataStep(s, Do(s, RecvSucc(p)), RecvSucc(p), k, v, m0)
  {
    hide DataStep, Tiles, InSide, OutSide, Tail;
    LastUpStreams(s, sh, l, p, o);
    WordData(s, Do(s, RecvSucc(p)), RecvSucc(p), l, o, Down(s, l, o), p, l, [Leaving(o)], Down(s, l, o), [], k, v, m0);
  }

  lemma TailStepData(s: Net, sh: Shape, l: Id, p: Id, o: Id, e: Event, k: Ssn, v: Value, m0: Msg)
    requires Tail(s, sh, l, p, o) && Enabled(s, e) && IsRequest(m0) && !e.LeaveDone?
    ensures DataStep(s, Do(s, e), e, k, v, m0)
  {
    TailEvents(s, sh, l, p, o, e);
    match e
    case RecvPred(_) =>
      if Down(s, l, o)[0].Insert? {
        AbsorbDownData(s, sh, l, p, o, k, v, m0);
      } else {
        LastDownData(s, sh, l, p, o, k, v, m0);
      }
    case RecvSucc(_) =>
      if Up(s, p, l)[0].Insert? {
        AbsorbUpData(s, sh, l, p, o, k, v, m0);
      } else {
        LastUpData(s, sh, l, p, o, k, v, m0);
      }
    case Accept(_) => AcceptData(s, e, k, v, m0);
    case _ =>
  }
}
