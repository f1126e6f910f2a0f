/** struct self_data and the handlers of src/c_node.c and src/hash_handling.c that update it in place.
    Every handler is proved to do what the function of NodeSpec says: the same new node, the same
    effects on sockets in the same order. */
module CNode {
  import opened Base
  import opened Hash
  import opened Ranges
  import opened StoreSpec
  import opened NodeSpec
  import opened HashTable
  import opened Storage

  /** What a handler does to its sockets. */
  datatype Effect =
    | ClosePred
    | CloseSucc
    | Connect(to: Id)
    | ToSucc(m: Msg)
    | ToPred(m: Msg)
    | Answer(r: Reply)
    | ExitWithError

  function ToSuccs(ms: seq<Msg>): seq<Effect> {
    if ms == [] then [] else [ToSucc(ms[0])] + ToSuccs(ms[1..])
  }

  function ToPreds(ms: seq<Msg>): seq<Effect> {
    if ms == [] then [] else [ToPred(ms[0])] + ToPreds(ms[1..])
  }

  /** The effects of a handler that turned its node into n', in the order of the network model. */
  function Effects(n': Node, out: Out): seq<Effect> {
    if out.fault then [ExitWithError]
    else
      (if out.dropPred then [ClosePred] else [])
      + (if out.dropSucc then [CloseSucc] else [])
      + ToSuccs(out.before)
      + (if out.connect && n'.succ.Some? then [Connect(n'.succ.value)] else [])
      + ToSuccs(out.after)
      + ToPreds(out.back)
      + (if out.reply.Some? then [Answer(out.reply.value)] else [])
  }

  lemma NoEffects()
    ensures ToSuccs([]) == [] && forall n :: Effects(n, FAULT) == [ExitWithError]
  {
  }

  lemma OneMessage(n: Node, m: Msg)
    ensures ToSuccs([m]) == [ToSucc(m)]
    ensures Effects(n, SILENT.(after := [m])) == [ToSucc(m)] && Effects(n, SILENT.(back := [m])) == [ToPred(m)]
  {
    assert ToSuccs([m]) == [ToSucc(m)] + ToSuccs([m][1..]) == [ToSucc(m)];
    assert ToPreds([m]) == [ToPred(m)] + ToPreds([m][1..]) == [ToPred(m)];
  }

  lemma {:induction false} ToSuccsConcat(a: seq<Msg>, b: seq<Msg>)
    ensures ToSuccs(a + b) == ToSuccs(a) + ToSuccs(b)
  {
    if a == [] {
      assert a + b == b;
    } else {
      assert (a + b)[1..] == a[1..] + b;
      ToSuccsConcat(a[1..], b);
    }
  }

  /** The effects of a split, written one after the other. */
  lemma SplitEffects(log: seq<Effect>, n: Node, src: Id, before: seq<Msg>, h: seq<Msg>)
    requires n.succ == Some(src)
    ensures log + Effects(n, SILENT.(before := before, connect := true, after := h))
            == log + ToSuccs(before) + [Connect(src)] + ToSuccs(h)
  {
    assert ToPreds([]) == [];
    assert Effects(n, SILENT.(before := before, connect := true, after := h)) ==
           ToSuccs(before) + [Connect(src)] + ToSuccs(h);
  }

  /** A handler that writes nothing. */
  lemma SocketEffects(n: Node, out: Out)
    requires !out.fault && out.before == out.after == out.back == [] && out.reply == None
    ensures Effects(n, out) == (if out.dropPred then [ClosePred] else []) + (if out.dropSucc then [CloseSucc] else [])
                               + (if out.connect && n.succ.Some? then [Connect(n.succ.value)] else [])
  {
  }

  /** struct self_data. */
  class SelfData {
    const me: Id                  // my_ip_addr and listening port
    var rangeStart: byte
    var rangeEnd: byte
    var succ: Option<Id>          // successor.socket
    var succAddr: Id              // successor.dest_addr
    var pred: Option<Id>          // predecessor.socket
    var mode: Mode
    var entries: Entries          // hash_table and ssns
    var log: seq<Effect>          // what went out, in order

    ghost predicate Valid()
      reads this, entries, entries.ssns, entries.table, entries.table.entries, entries.table.m.cells
    {
      entries.Valid()
    }

    /** The node as a value. */
    ghost function View(): Node
      reads this, entries, entries.table
    {
      Node(mode, rangeStart, rangeEnd, entries.Contents(), succ, succAddr, pred)
    }

    /** A handler did what the function says. */
    twostate predicate Does(r: (Node, Out))
      reads this, entries, entries.table
    {
      (!r.1.fault ==> View() == r.0) && log == old(log) + Effects(r.0, r.1)
    }

    /** q4: the first node of a network. */
    constructor (me: Id)
      ensures Valid() && this.me == me && log == [] && fresh(entries)
      ensures View() == FIRST_NODE == Node(Running, 0, 255, EMPTY_STORE, None, 0, None)
    {
      this.me := me;
      rangeStart, rangeEnd := 0, LAST;
      succ, succAddr, pred, mode := None, 0, None, Running;
      entries := new Entries();
      log := [];
    }

    ghost predicate OwnsKey(k: Ssn)
      reads this
    {
      InRange(HashOf(k), rangeStart, rangeEnd)
    }

    /** check_range: true where the source returns 0. */
    method CheckRange(k: Ssn) returns (inRange: bool)
      ensures inRange <==> OwnsKey(k)
      ensures inRange <==> rangeStart <= Polynomial(k) % 256 <= rangeEnd
    {
      var val := DigestOfKey(k);
      return val >= rangeStart && val <= rangeEnd;
    }

    /** A write to the successor socket, or the error exit when there is none. */
    method SendToSuccessor(m: Msg)
      modifies this`log
      ensures log == old(log) + Effects(View(), Forward(View(), m))
      ensures log == old(log) + if succ.Some? then [ToSucc(m)] else [ExitWithError]
    {
      OneMessage(View(), m);
      log := log + if succ.Some? then [ToSucc(m)] else [ExitWithError];
    }

    method HandleHtInsert(k: Ssn, v: Value)
      requires Valid() && (OwnsKey(k) ==> |entries.keys| < MAX_SIZE || k in entries.Contents().vals)
      modifies this`log, entries, entries.ssns, entries.table, entries.table.entries, entries.table.m.cells
      ensures Valid() && Does(HandleValue(old(View()), Insert(k, v)))
      ensures OwnsKey(k) ==> log == old(log) && entries.Contents().vals == old(entries.Contents().vals)[k := v]
      ensures !OwnsKey(k) ==>
                && entries.Contents() == old(entries.Contents())
                && log == old(log) + if succ.Some? then [ToSucc(Msg.Insert(k, v))] else [ExitWithError]
    {
      hide Entries.Valid;
      var inRange := CheckRange(k);
      if inRange {
        entries.Insert(k, v);
      } else {
        SendToSuccessor(Msg.Insert(k, v));
      }
    }

    method HandleHtRemove(k: Ssn)
      requires Valid()
      modifies this`log, entries, entries.ssns, entries.table, entries.table.entries, entries.table.m.cells
      ensures Valid() && Does(HandleValue(old(View()), Remove(k)))
      ensures OwnsKey(k) ==> log == old(log) && entries.Contents().vals == old(entries.Contents().vals) - {k}
      ensures !OwnsKey(k) ==>
                && entries.Contents() == old(entries.Contents())
                && log == old(log) + if succ.Some? then [ToSucc(Msg.Remove(k))] else [ExitWithError]
    {
      hide Entries.Valid;
      var inRange := CheckRange(k);
      if inRange {
        entries.Remove(k);
      } else {
        SendToSuccessor(Msg.Remove(k));
      }
    }

    method HandleHtLookup(k: Ssn, client: Id)
      requires Valid()
      modifies this`log
      ensures Valid() && Does(HandleValue(old(View()), Lookup(k, client)))
      ensures OwnsKey(k) ==> log == old(log) + if k in entries.Contents().vals
                                               then [Answer(Reply(client, k, entries.Contents().vals[k]))] else []
      ensures !OwnsKey(k) ==>
                log == old(log) + if succ.Some? then [ToSucc(Msg.Lookup(k, client))] else [ExitWithError]
    {
      var inRange := CheckRange(k);
      if inRange {
        AnswerLookup(k, client);
      } else {
        SendToSuccessor(Msg.Lookup(k, client));
      }
    }

    /** handle_ht_lookup for a key in range. */
    method AnswerLookup(k: Ssn, client: Id)
      requires Valid() && OwnsKey(k)
      modifies this`log
      ensures Valid()
      ensures log == old(log) + if k in entries.Contents().vals
                                then [Answer(Reply(client, k, entries.Contents().vals[k]))] else []
    {
      var res := entries.Lookup(k);
      if res.Some? {
        log := log + [Answer(Reply(client, k, res.value))];
      }
    }

    /** connect_to_tcp, to the address in successor.dest_addr. */
    method ConnectToTcp()
      modifies this`succ, this`log
      ensures succ == Some(succAddr) && log == old(log) + [Connect(succAddr)]
    {
      succ := Some(succAddr);
      log := log + [Connect(succAddr)];
    }

    /** The range is halved; the response and the upper half's entries go to the new successor. */
    method SendNewRangeAndEntries(oldSucc: Id)
      requires Valid() && succ.Some?
      modifies this`rangeEnd, this`log, entries, entries.ssns,
               entries.table, entries.table.entries, entries.table.m.cells
      ensures Valid() && View() == KeepLower(old(View())) && log == old(log) + ToSuccs(Handover(old(View()), oldSucc))
    {
      hide Entries.Valid;
      var middlePoint: byte := Mid(rangeStart, rangeEnd);
      var response := JoinResponse(oldSucc, AfterMid(rangeStart, rangeEnd), rangeEnd);
      rangeEnd := middlePoint;
      var sent, missing := entries.TransferOutside(rangeStart, rangeEnd);
      log := log + ToSuccs([response]) + ToSuccs(sent);
      ToSuccsConcat([response], sent);
      assert old(log) + ToSuccs([response]) + ToSuccs(sent) == old(log) + (ToSuccs([response]) + ToSuccs(sent));
    }

    /** handle_net_join. After the split of a lone node the control flow is in accept. */
    method HandleNetJoin(src: Id, maxSpan: byte, maxId: Id)
      requires Valid()
      modifies this, entries, entries.ssns, entries.table, entries.table.entries, entries.table.m.cells
      ensures entries == old(entries)
      ensures Valid() && Does(HandleJoin(me, old(View()), src, maxSpan, maxId))
      ensures old(pred.None? != succ.None?) ==> log == old(log) + [ExitWithError]
    {
      hide Entries.Valid, Inserts, Outside, Keep, Mid, AfterMid, ToSuccs, Effects;
      var selfRange := rangeEnd - rangeStart;
      ghost var n := View();
      if pred == None && succ == None {
        succAddr := src;
        ConnectToTcp();
        SendNewRangeAndEntries(me);
        mode := AwaitPred;
        NoEffects();
        SplitEffects(old(log), View(), src, [], Handover(n, me));
        assert old(log) + [] == old(log);
      } else if pred == None || succ == None {
        NoEffects();
        log := log + [ExitWithError];
      } else if maxId == me {
        log := log + [ToSucc(Close)];
        var previous := succAddr;
        succAddr := src;
        ConnectToTcp();
        SendNewRangeAndEntries(previous);
        OneMessage(n, Close);
        SplitEffects(old(log), View(), src, [Close], Handover(n, previous));
      } else if maxSpan < selfRange {
        SendToSuccessor(Join(src, selfRange, me));
      } else {
        SendToSuccessor(Join(src, maxSpan, maxId));
      }
    }

    /** handle_net_new_range and update_range. */
    method HandleNetNewRange(newStart: byte, newEnd: byte)
      requires Valid()
      modifies this`rangeStart, this`rangeEnd, this`log
      ensures Valid() && Does(HandleNewRange(old(View()), newStart, newEnd))
      ensures newStart >= old(rangeStart) && newEnd <= old(rangeEnd) ==> log == old(log) + [ExitWithError]
    {
      hide Entries.Valid;
      OneMessage(View(), NewRangeResponse);
      if newStart < rangeStart {
        rangeStart := newStart;
        log := log + if pred.Some? then [ToPred(NewRangeResponse)] else [ExitWithError];
      } else if newEnd > rangeEnd {
        rangeEnd := newEnd;
        SendToSuccessor(NewRangeResponse);
      } else {
        // neither end grows: the response goes to no connected socket
        log := log + [ExitWithError];
      }
    }

    /** handle_net_leaving_pdu. */
    method HandleNetLeaving(newAddress: Id)
      requires Valid()
      modifies this`succ, this`succAddr, this`log
      ensures Valid() && Does(HandleLeaving(me, old(View()), newAddress))
      ensures newAddress == me ==> succ == None && succAddr == old(succAddr) && log == old(log) + [CloseSucc]
      ensures newAddress != me ==>
                succ == Some(newAddress) && succAddr == newAddress && log == old(log) + [CloseSucc, Connect(newAddress)]
    {
      hide Entries.Valid;
      log := log + [CloseSucc];
      if newAddress == me {
        succ := None;
      } else {
        succAddr := newAddress;
        ConnectToTcp();
      }
      SocketEffects(View(), HandleLeaving(me, old(View()), newAddress).1);
    }

    /** handle_net_close_connection; the last node does not go into accept. */
    method HandleNetCloseConnection()
      requires Valid()
      modifies this`pred, this`mode, this`log
      ensures Valid() && Does(HandleClose(old(View())))
      ensures pred == None && log == old(log) + [ClosePred]
      ensures mode == if rangeStart == 0 && rangeEnd == 255 then Running else AwaitPred
    {
      hide Entries.Valid;
      log := log + [ClosePred];
      pred := None;
      if rangeStart == 0 && rangeEnd == 255 {
        mode := Running;
      } else {
        mode := AwaitPred;
      }
      SocketEffects(View(), HandleClose(old(View())).1);
    }

    /** The switch of poll_for_incoming_data: each of the seven PDUs goes to its handler. */
    method HandlePdu(m: Msg)
      requires Valid() && !m.JoinResponse? && !m.NewRangeResponse?
      requires m.Insert? && OwnsKey(m.k) ==> |entries.keys| < MAX_SIZE || m.k in entries.Contents().vals
      modifies this, entries, entries.ssns, entries.table, entries.table.entries, entries.table.m.cells
      ensures Valid() && entries == old(entries) && Does(Handle(me, old(View()), m))
    {
      hide Entries.Valid, Effects, HandleValue, HandleJoin, HandleNewRange, HandleLeaving, HandleClose;
      match m
      case Insert(k, v) => HandleHtInsert(k, v);
      case Remove(k) => HandleHtRemove(k);
      case Lookup(k, client) => HandleHtLookup(k, client);
      case Join(src, maxSpan, maxId) => HandleNetJoin(src, maxSpan, maxId);
      case NewRange(newStart, newEnd) => HandleNetNewRange(newStart, newEnd);
      case Leaving(next) => HandleNetLeaving(next);
      case Close => HandleNetCloseConnection();
    }

    /** The end of q7 and q8: a joiner reads the answer to its NET_JOIN. */
    method HandleJoinAnswer(m: Msg)
      requires Valid()
      modifies this
      ensures Valid() && (m.JoinResponse? ==> fresh(entries)) && Does(HandleJoinResponse(old(View()), m))
      ensures m.JoinResponse? ==> entries.Contents() == EMPTY_STORE && rangeStart == m.lo && rangeEnd == m.hi
    {
      hide Entries.Valid, Effects;
      if m.JoinResponse? {
        succAddr := m.next;
        rangeStart, rangeEnd := m.lo, m.hi;
        ConnectToTcp();
        mode := Running;
        var table := new Entries();
        assert table.Valid();
        entries := table;
        assert Valid();
        SocketEffects(View(), HandleJoinResponse(old(View()), m).1);
      } else {
        NoEffects();
        log := log + [ExitWithError];
        assert forall c: Cell :: c in entries.table.m.cells ==> c as object != this;
        assert Valid();
      }
    }

    /** shutdown_proceedure up to the wait for the answer; a node that is not connected exits at once. */
    method StartShutdown() returns (exited: bool)
      requires Valid()
      modifies this`mode, this`log
      ensures Valid() && (exited <==> old(pred) == None && old(succ) == None)
      ensures if exited then View() == old(View()) && log == old(log) else Does(OfferRange(old(View())))
      ensures !exited ==>
                var offer := NewRange(rangeStart, rangeEnd);
                mode == LeaveWait && log == old(log) + [if rangeStart == 0 then ToSucc(offer) else ToPred(offer)]
    {
      hide Entries.Valid;
      if pred == None && succ == None {
        return true;
      }
      OneMessage(View(), NewRange(rangeStart, rangeEnd));
      mode := LeaveWait;
      log := log +
        if rangeStart == 0 then [ToSucc(NewRange(rangeStart, rangeEnd))] else [ToPred(NewRange(rangeStart, rangeEnd))];
      return false;
    }

    /** shutdown_proceedure after the receive: all entries to the heir, and only then a look at the type of
        the answer; then the two goodbyes. */
    method FinishShutdown(answer: Msg)
      requires Valid()
      modifies this`log, entries.table, entries.table.entries, entries.table.m.cells
      ensures log == old(log) + Goodbye(old(View()), answer) && entries.table.m.contents == map[]
      ensures answer.NewRangeResponse? ==>
                |log| >= 2 && log[|log| - 2] == ToSucc(Close) && log[|log| - 1] == ToPred(Leaving(succAddr))
      ensures !answer.NewRangeResponse? ==> log != [] && log[|log| - 1] == ExitWithError
    {
      hide Entries.Valid, HashTable.Table.Valid, ToSuccs, ToPreds, Inserts;
      var sent, missing := entries.SendAll();
      log := log + if rangeStart == 0 then ToSuccs(sent) else ToPreds(sent);
      if !answer.NewRangeResponse? {
        log := log + [ExitWithError];
      } else {
        log := log + [ToSucc(Close)] + [ToPred(Leaving(succAddr))];
      }
    }
  }

  /** What a leaver writes after its answer, in the order in which it writes. */
  function Goodbye(n: Node, answer: Msg): seq<Effect> {
    var sent := Inserts(n.store.keys, n.store.vals);
    (if n.lo == 0 then ToSuccs(sent) else ToPreds(sent))
    + if answer.NewRangeResponse? then [ToSucc(Close)] + [ToPred(Leaving(n.succAddr))] else [ExitWithError]
  }

  /** What of a log went to one link. */
  function OnSucc(log: seq<Effect>): seq<Msg> {
    if log == [] then [] else (if log[0].ToSucc? then [log[0].m] else []) + OnSucc(log[1..])
  }

  function OnPred(log: seq<Effect>): seq<Msg> {
    if log == [] then [] else (if log[0].ToPred? then [log[0].m] else []) + OnPred(log[1..])
  }

  lemma {:induction false} OnLinksConcat(a: seq<Effect>, b: seq<Effect>)
    ensures OnSucc(a + b) == OnSucc(a) + OnSucc(b) && OnPred(a + b) == OnPred(a) + OnPred(b)
  {
    hide OnSucc, OnPred;
    OnNothing();
    if a == [] {
      assert a + b == b;
    } else {
      assert (a + b)[0] == a[0] && (a + b)[1..] == a[1..] + b;
      OnLinksConcat(a[1..], b);
      OnHead(a);
      OnHead(a + b);
    }
  }

  lemma OnNothing()
    ensures OnSucc([]) == [] && OnPred([]) == []
  {
  }

  lemma OnHead(log: seq<Effect>)
    requires log != []
    ensures OnSucc(log) == (if log[0].ToSucc? then [log[0].m] else []) + OnSucc(log[1..])
    ensures OnPred(log) == (if log[0].ToPred? then [log[0].m] else []) + OnPred(log[1..])
  {
  }

  lemma {:induction false} WritesOnLinks(ms: seq<Msg>)
    ensures OnSucc(ToSuccs(ms)) == ms && OnPred(ToSuccs(ms)) == []
    ensures OnPred(ToPreds(ms)) == ms && OnSucc(ToPreds(ms)) == []
  {
    if ms != [] {
      assert ms == [ms[0]] + ms[1..];
      assert ToSuccs(ms)[1..] == ToSuccs(ms[1..]) && ToPreds(ms)[1..] == ToPreds(ms[1..]);
      WritesOnLinks(ms[1..]);
    }
  }

  lemma {:induction false} WritesAreNoExit(ms: seq<Msg>)
    ensures ExitWithError !in ToSuccs(ms) && ExitWithError !in ToPreds(ms)
  {
    if ms != [] {
      WritesAreNoExit(ms[1..]);
    }
  }

  lemma WordsOnLinks(m: Msg)
    ensures OnSucc([ToSucc(m)]) == [m] && OnPred([ToSucc(m)]) == []
    ensures OnPred([ToPred(m)]) == [m] && OnSucc([ToPred(m)]) == []
  {
  }

  /** On each link the leaver's words are, in order, those of the network model; after any other answer
      both take the error exit. */
  lemma GoodbyeIsFarewell(n: Node, answer: Msg)
    ensures Farewell(n, answer).fault <==> ExitWithError in Goodbye(n, answer)
    ensures !Farewell(n, answer).fault ==>
              && OnSucc(Goodbye(n, answer)) == Farewell(n, answer).after
              && OnPred(Goodbye(n, answer)) == Farewell(n, answer).back
  {
    var sent := Inserts(n.store.keys, n.store.vals);
    WritesOnLinks(sent);
    WritesAreNoExit(sent);
    hide Inserts, OnSucc, OnPred, ToSuccs, ToPreds;
    var first := if n.lo == 0 then ToSuccs(sent) else ToPreds(sent);
    if answer.NewRangeResponse? {
      LastWords(first, n.succAddr);
      assert sent + [] == sent;
    } else {
      assert Goodbye(n, answer)[|first|] == ExitWithError;
    }
  }

  lemma LastWords(first: seq<Effect>, next: Id)
    ensures var all := first + ([ToSucc(Close)] + [ToPred(Leaving(next))]);
            && OnSucc(all) == OnSucc(first) + [Close] && OnPred(all) == OnPred(first) + [Leaving(next)]
            && (ExitWithError in all ==> ExitWithError in first)
  {
    hide OnSucc, OnPred;
    WordsOnLinks(Close);
    WordsOnLinks(Leaving(next));
    OnLinksConcat([ToSucc(Close)], [ToPred(Leaving(next))]);
    OnLinksConcat(first, [ToSucc(Close)] + [ToPred(Leaving(next))]);
  }
}
