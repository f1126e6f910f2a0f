/** Whole runs: what holds in every reachable state, whatever the interleaving of client requests,
    joins and leaves. */
module NetTheorems {
  import opened Base
  import opened Ranges
  import opened NodeSpec
  import opened Network
  import opened Ring
  import opened NetInv
  import opened NetCore
  import opened NetData
  import opened NetLeave
  import opened NetTail
  import opened NetLeaveData

  /** Nobody is leaving; or the offer, the answer or the farewell of a leave is in flight. */
  ghost predicate Inv(s: Net) {
    || (exists sh, loc :: Normal(s, sh, loc))
    || (exists q, sh, l :: LeaveSetting(q, sh, l) && Offered(q, s, sh, l))
    || (exists q, sh, sh', l :: AnsweredSetting(q, s, sh, sh', l))
    || (exists sh, l, p, o :: Tail(s, sh, l, p, o))
  }

  lemma OfferedStep(q: Net, s: Net, sh: Shape, l: Id, e: Event)
    requires LeaveSetting(q, sh, l) && Offered(q, s, sh, l) && Enabled(s, e)
    ensures Inv(Do(s, e)) && !Faults(s, e)
  {
    OnlyHeirReads(q, s, sh, l, e);
    var sh' := RemovedShape(q, sh, l);
    if sh.lo[l] == 0 {
      AnswerDown(q, s, sh, sh', l);
    } else {
      AnswerUp(q, s, sh, sh', l);
    }
    assert AnsweredSetting(q, Do(s, e), sh, sh', l);
  }

  lemma RemovedShape(q: Net, sh: Shape, l: Id) returns (sh': Shape)
    requires LeaveSetting(q, sh, l)
    ensures ShapeOk(sh') && IsRemoval(sh, sh', l)
  {
    AloneIff(sh, l);
    sh' := Removal(sh, l);
    RemovalOk(sh, sh', l);
  }

  lemma AnsweredStep(q: Net, s: Net, sh: Shape, sh': Shape, l: Id, e: Event)
    requires AnsweredSetting(q, s, sh, sh', l) && Enabled(s, e)
    ensures Inv(Do(s, e)) && !Faults(s, e)
  {
    OnlyLeaverReads(q, s, sh, sh', l, e);
    FarewellEffect(q, s, sh, sh', l);
    DepartTail(q, s, Do(s, e), sh, sh', l);
  }

  lemma TailInv(s: Net, sh: Shape, l: Id, p: Id, o: Id, e: Event)
    requires Tail(s, sh, l, p, o) && Enabled(s, e)
    ensures Inv(Do(s, e)) && !Faults(s, e)
  {
    TailStep(s, sh, l, p, o, e);
    if e.LeaveDone? {
      CleanIsNormal(Do(s, e), sh);
    }
  }

  lemma NormalInv(s: Net, sh: Shape, loc: map<Id, Loc>, e: Event)
    requires Normal(s, sh, loc) && Enabled(s, e) && SplitGuard(s, e)
    ensures Inv(Do(s, e)) && !Faults(s, e)
  {
    if e.LeaveStart? {
      QuietIsClean(s, sh, loc);
      OfferEffect(s, sh, e.l);
      assert LeaveSetting(s, sh, e.l) && Offered(s, Do(s, e), sh, e.l);
    } else {
      var sh', loc' := NormalStep(s, sh, loc, e);
    }
  }

  /** Every step of every run keeps the invariant, and no handler reaches an error path. */
  lemma InvStep(s: Net, e: Event)
    requires Inv(s) && Enabled(s, e) && SplitGuard(s, e)
    ensures Inv(Do(s, e)) && !Faults(s, e)
  {
    hide Normal, Tail, Offered, Answered, Enabled, Handle, Streams;
    if sh, loc :| Normal(s, sh, loc) {
      NormalInv(s, sh, loc, e);
    } else if q, sh, l :| LeaveSetting(q, sh, l) && Offered(q, s, sh, l) {
      OfferedStep(q, s, sh, l, e);
    } else if q, sh, sh', l :| AnsweredSetting(q, s, sh, sh', l) {
      AnsweredStep(q, s, sh, sh', l, e);
    } else {
      var sh, l, p, o :| Tail(s, sh, l, p, o);
      TailInv(s, sh, l, p, o, e);
    }
  }

  /** Every step only moves copies, and only a VAL_REMOVE in flight can end a key. */
  lemma InvData(s: Net, e: Event, k: Ssn, v: Value, m0: Msg)
    requires Inv(s) && Enabled(s, e) && IsRequest(m0)
    ensures DataStep(s, Do(s, e), e, k, v, m0)
  {
    hide DataStep, Normal, Tail, Offered, Answered, CleanNode, Tiles, Do;
    if e.LeaveDone? {
      LeaveDoneData(s, e, k, v, m0);
    } else if sh, loc :| Normal(s, sh, loc) {
      if e.LeaveStart? {
        QuietIsClean(s, sh, loc);
        OfferData(s, sh, e.l, k, v, m0);
      } else {
        NormalData(s, sh, loc, e, k, v, m0);
      }
    } else if q, sh, l :| LeaveSetting(q, sh, l) && Offered(q, s, sh, l) {
      OnlyHeirReads(q, s, sh, l, e);
      var sh' := RemovedShape(q, sh, l);
      OfferedData(q, s, sh, sh', l, k, v, m0);
    } else if q, sh, sh', l :| AnsweredSetting(q, s, sh, sh', l) {
      OnlyLeaverReads(q, s, sh, sh', l, e);
      FarewellStepData(q, s, sh, sh', l, k, v, m0);
    } else {
      var sh, l, p, o :| Tail(s, sh, l, p, o);
      TailStepData(s, sh, l, p, o, e, k, v, m0);
    }
  }

  lemma OfferedData(q: Net, s: Net, sh: Shape, sh': Shape, l: Id, k: Ssn, v: Value, m0: Msg)
    requires LeaveSetting(q, sh, l) && ShapeOk(sh') && IsRemoval(sh, sh', l) && Offered(q, s, sh, l) && IsRequest(m0)
    ensures Enabled(s, HeirReads(sh, l)) && DataStep(s, Do(s, HeirReads(sh, l)), HeirReads(sh, l), k, v, m0)
  {
    if sh.lo[l] == 0 {
      AnswerDownData(q, s, sh, sh', l, k, v, m0);
    } else {
      AnswerUpData(q, s, sh, sh', l, k, v, m0);
    }
  }

  lemma LeaveDoneData(s: Net, e: Event, k: Ssn, v: Value, m0: Msg)
    requires Enabled(s, e) && e.LeaveDone?
    ensures DataStep(s, Do(s, e), e, k, v, m0)
  {
    var s' := Do(s, e);
    DownChanged(s, s', 0, 0, m0);
    DownChanged(s, s', 0, 0, Insert(k, v));
    assert Down(s', 0, 0) == Down(s, 0, 0) == [];
    SameStored(s, s', k, v);
    assert Copy(s, k, v) ==> Copy(s', k, v);
  }

  // ---- runs ----

  /** A run in which no node is made to split a range of one value. */
  ghost predicate GuardedRun(s: Net, es: seq<Event>)
    ensures GuardedRun(s, es) ==> IsRun(s, es)
    decreases |es|
  {
    es == [] || (Enabled(s, es[0]) && SplitGuard(s, es[0]) && GuardedRun(Do(s, es[0]), es[1..]))
  }

  lemma InitialClean(id: Id) returns (sh: Shape)
    requires id != 0
    ensures Clean(Initial(id), sh) && sh.order == [id]
  {
    sh := Shape([id], map[id := id], map[id := id], map[id := 0], map[id := LAST]);
    assert sh.order[0] == id;
    assert id in sh.order;
  }

  lemma {:induction false} RunInv(s: Net, es: seq<Event>)
    requires Inv(s) && GuardedRun(s, es)
    ensures Inv(After(s, es))
    decreases |es|
  {
    if es != [] {
      InvStep(s, es[0]);
      RunInv(Do(s, es[0]), es[1..]);
    }
  }

  /** A split that breaks the guard spoils the ring, but no node notices. */
  lemma UnguardedNoFault(s: Net, e: Event)
    requires Enabled(s, e) && !SplitGuard(s, e)
    ensures !Faults(s, e)
  {
    var d := DeliveryOf(s, e);
    assert d.rest.nodes == s.nodes;
    assert !HandleJoin(d.b, s.nodes[d.b], d.m.src, d.m.maxSpan, d.m.maxId).1.fault;
  }

  /** Safety of every reachable state: the invariant holds, and the next event, whichever it is,
      drives no node into exit_with_error or an unexpected PDU. */
  lemma ReachableSafe(id: Id, es: seq<Event>)
    requires id != 0 && GuardedRun(Initial(id), es)
    ensures Inv(After(Initial(id), es))
    ensures forall e :: Enabled(After(Initial(id), es), e) ==> !Faults(After(Initial(id), es), e)
  {
    var sh := InitialClean(id);
    CleanIsNormal(Initial(id), sh);
    RunInv(Initial(id), es);
    var s := After(Initial(id), es);
    forall e | Enabled(s, e) ensures !Faults(s, e) {
      if SplitGuard(s, e) {
        InvStep(s, e);
      } else {
        UnguardedNoFault(s, e);
      }
    }
  }

  // ---- no data loss ----

  ghost predicate NoRemove(es: seq<Event>, k: Ssn) {
    forall i :: 0 <= i < |es| && es[i].ClientSend? ==> es[i].m != Remove(k)
  }

  /** What every step of the run does to the data. */
  ghost predicate DataRun(s: Net, es: seq<Event>)
    requires IsRun(s, es)
    decreases |es|
  {
    es == [] ||
    ((forall k, v, m0 {:trigger DataStep(s, Do(s, es[0]), es[0], k, v, m0)} ::
        IsRequest(m0) ==> DataStep(s, Do(s, es[0]), es[0], k, v, m0))
     && DataRun(Do(s, es[0]), es[1..]))
  }

  lemma {:induction false} RunData(s: Net, es: seq<Event>)
    requires Inv(s) && GuardedRun(s, es)
    ensures DataRun(s, es)
    decreases |es|
  {
    if es != [] {
      InvStep(s, es[0]);
      RunData(Do(s, es[0]), es[1..]);
      forall k, v, m0 {:trigger DataStep(s, Do(s, es[0]), es[0], k, v, m0)} | IsRequest(m0)
        ensures DataStep(s, Do(s, es[0]), es[0], k, v, m0)
      {
        InvData(s, es[0], k, v, m0);
      }
    }
  }

  /** A key that is stored or in flight stays so as long as nobody removes it. */
  lemma {:induction false} KeyStays(s: Net, es: seq<Event>, k: Ssn)
    requires IsRun(s, es) && DataRun(s, es) && Present(s, k) && !Carried(s, Remove(k)) && NoRemove(es, k)
    ensures Present(After(s, es), k)
    decreases |es|
  {
    if es != [] {
      var v :| Copy(s, k, v);
      assert DataStep(s, Do(s, es[0]), es[0], k, v, Remove(k));
      KeyStays(Do(s, es[0]), es[1..], k);
    }
  }

  lemma {:induction false} InsertedStays(s: Net, es: seq<Event>, i: nat, k: Ssn)
    requires IsRun(s, es) && DataRun(s, es) && !Carried(s, Remove(k)) && NoRemove(es, k)
    requires i < |es| && es[i].ClientSend? && es[i].m.Insert? && es[i].m.k == k
    ensures Present(After(s, es), k)
    decreases |es|
  {
    hide Enabled, Do;
    var v := if i == 0 then es[0].m.v else Value([], []);
    assert DataStep(s, Do(s, es[0]), es[0], k, v, Remove(k));
    if i == 0 {
      assert Copy(Do(s, es[0]), k, v);
      KeyStays(Do(s, es[0]), es[1..], k);
    } else {
      assert es[1..][i - 1] == es[i];
      InsertedStays(Do(s, es[0]), es[1..], i - 1, k);
    }
  }

  lemma NothingCarried(id: Id, m: Msg)
    ensures !Carried(Initial(id), m)
  {
    forall x: Id, y: Id ensures Down(Initial(id), x, y) == [] && Up(Initial(id), x, y) == [] {}
  }

  lemma InitialRun(id: Id, es: seq<Event>)
    requires id != 0 && GuardedRun(Initial(id), es)
    ensures DataRun(Initial(id), es)
  {
    var sh := InitialClean(id);
    CleanIsNormal(Initial(id), sh);
    RunData(Initial(id), es);
  }

  /** No data loss over whole runs: a key that was inserted and never targeted by a remove is stored
      at a node or carried by a VAL_INSERT, whatever joins, leaves and requests happened. */
  lemma NoDataLoss(id: Id, es: seq<Event>, i: nat, k: Ssn)
    requires id != 0 && GuardedRun(Initial(id), es) && NoRemove(es, k)
    requires i < |es| && es[i].ClientSend? && es[i].m.Insert? && es[i].m.k == k
    ensures Present(After(Initial(id), es), k)
  {
    InitialRun(id, es);
    NothingCarried(id, Remove(k));
    InsertedStays(Initial(id), es, i, k);
  }

  lemma {:induction false} CopiesOfRun(s: Net, es: seq<Event>, k: Ssn, v: Value)
    requires IsRun(s, es) && DataRun(s, es) && Copy(After(s, es), k, v)
    ensures Copy(s, k, v) || exists i :: 0 <= i < |es| && es[i].ClientSend? && es[i].m == Insert(k, v)
    decreases |es|
  {
    if es != [] {
      assert DataStep(s, Do(s, es[0]), es[0], k, v, Remove(k));
      CopiesOfRun(Do(s, es[0]), es[1..], k, v);
      if i :| 0 <= i < |es[1..]| && es[1..][i].ClientSend? && es[1..][i].m == Insert(k, v) {
        assert es[i + 1] == es[1..][i];
      }
    }
  }

  /** No data is made up: every value stored or in flight is one a client inserted. */
  lemma OnlyInsertedData(id: Id, es: seq<Event>, k: Ssn, v: Value)
    requires id != 0 && GuardedRun(Initial(id), es) && Copy(After(Initial(id), es), k, v)
    ensures exists i :: 0 <= i < |es| && es[i].ClientSend? && es[i].m == Insert(k, v)
  {
    InitialRun(id, es);
    NothingCarried(id, Insert(k, v));
    CopiesOfRun(Initial(id), es, k, v);
  }
}
