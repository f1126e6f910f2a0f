/** One node of the ring: its fields, the messages it exchanges, and what each handler of
    src/c_node.c and src/hash_handling.c does, as functions. CNode.dfy holds the class whose methods
    are proved equal to them; Network.dfy puts the nodes together. */
module NodeSpec {
  import opened Base
  import opened Hash
  import opened Ranges
  import opened StoreSpec

  datatype Msg =
    | Insert(k: Ssn, v: Value)
    | Remove(k: Ssn)
    | Lookup(k: Ssn, client: Id)
    | Join(src: Id, maxSpan: byte, maxId: Id)
    | JoinResponse(next: Id, lo: byte, hi: byte)
    | Close
    | NewRange(newLo: byte, newHi: byte)
    | NewRangeResponse
    | Leaving(newSucc: Id)

  /** Where a node's control flow stands: blocked in q7's accept, then in q7's receive; in the main
      loop q6; blocked in the accept of a handler; blocked in the receive of the shutdown procedure. */
  datatype Mode = Joining | JoinWait | Running | AwaitPred | LeaveWait

  datatype Node = Node(mode: Mode, lo: byte, hi: byte, store: Store,
                       succ: Option<Id>,   // remote end of the successor socket, None when it is 0
                       succAddr: Id,       // successor.dest_addr
                       pred: Option<Id>)   // remote end of the predecessor socket

  datatype Reply = Reply(client: Id, k: Ssn, v: Value)

  /** What a handler does to the outside: writes to the successor link it had, then perhaps a new
      successor connection, writes to the successor link it then has, writes to the predecessor
      link, sockets it closes, a UDP answer, and whether it took an exit_with_error path. */
  datatype Out = Out(before: seq<Msg>, connect: bool, after: seq<Msg>, back: seq<Msg>,
                     dropPred: bool, dropSucc: bool, reply: Option<Reply>, fault: bool)

  /** The only node of a fresh network: q4. */
  const FIRST_NODE := Node(Running, 0, LAST, EMPTY_STORE, None, 0, None)

  const SILENT := Out([], false, [], [], false, false, None, false)
  const FAULT := SILENT.(fault := true)

  function Forward(n: Node, m: Msg): Out {
    if n.succ.Some? then SILENT.(after := [m]) else FAULT
  }

  function Owns(n: Node, k: Ssn): bool {
    InRange(HashOf(k), n.lo, n.hi)
  }

  function Span(n: Node): int {
    n.hi - n.lo
  }

  /** One VAL_INSERT for every listed key that has a value, in order. */
  function Inserts(keys: seq<Ssn>, vals: map<Ssn, Value>): seq<Msg> {
    if keys == [] then []
    else (if keys[0] in vals then [Insert(keys[0], vals[keys[0]])] else []) + Inserts(keys[1..], vals)
  }

  /** Client requests: src/hash_handling.c, handle_ht_insert, handle_ht_remove, handle_ht_lookup. */
  function HandleValue(n: Node, m: Msg): (Node, Out)
    requires m.Insert? || m.Remove? || m.Lookup?
  {
    if !Owns(n, m.k) then (n, Forward(n, m))
    else match m
      case Insert(k, v) => (n.(store := Put(n.store, k, v)), SILENT)
      case Remove(k) => (n.(store := Delete(n.store, k)), SILENT)
      case Lookup(k, client) =>
        (n, if k in n.store.vals then SILENT.(reply := Some(Reply(client, k, n.store.vals[k]))) else SILENT)
  }

  /** send_new_range_and_entries: the node keeps the lower half. */
  function KeepLower(n: Node): Node {
    var mid := Mid(n.lo, n.hi);
    n.(hi := mid, store := Keep(n.store, n.lo, mid))
  }

  /** send_new_range_and_entries: the response, then every entry outside the lower half. */
  function Handover(n: Node, next: Id): seq<Msg> {
    [JoinResponse(next, AfterMid(n.lo, n.hi), n.hi)]
    + Inserts(Outside(n.store.keys, n.lo, Mid(n.lo, n.hi)), n.store.vals)
  }

  /** handle_net_join. */
  function HandleJoin(self: Id, n: Node, src: Id, maxSpan: byte, maxId: Id): (Node, Out) {
    if n.pred.None? && n.succ.None? then
      (KeepLower(n).(succ := Some(src), succAddr := src, mode := AwaitPred),
       SILENT.(connect := true, after := Handover(n, self)))
    else if n.pred.None? || n.succ.None? then (n, FAULT)
    else if maxId == self then
      (KeepLower(n).(succ := Some(src), succAddr := src),
       SILENT.(before := [Close], connect := true, after := Handover(n, n.succAddr)))
    else if maxSpan < Span(n) then (n, Forward(n, Join(src, Span(n), self)))
    else (n, Forward(n, Join(src, maxSpan, maxId)))
  }

  /** The NET_JOIN as node b sends it on. */
  function PassOn(b: Id, n: Node, m: Msg): Msg
    requires m.Join?
  {
    if m.maxSpan < Span(n) then Join(m.src, Span(n), b) else m
  }

  /** handle_net_new_range: the range grows and the response goes back to the side it grew on. */
  function HandleNewRange(n: Node, newLo: byte, newHi: byte): (Node, Out) {
    var (lo, hi, side) := UpdateRange(n.lo, n.hi, newLo, newHi);
    (n.(lo := lo, hi := hi),
     match side
     case ToPredecessor => if n.pred.Some? then SILENT.(back := [NewRangeResponse]) else FAULT
     case ToSuccessor => Forward(n, NewRangeResponse)
     case ToNobody => FAULT)
  }

  /** handle_net_leaving_pdu. */
  function HandleLeaving(self: Id, n: Node, next: Id): (Node, Out) {
    if next == self then (n.(succ := None), SILENT.(dropSucc := true))
    else (n.(succ := Some(next), succAddr := next), SILENT.(dropSucc := true, connect := true))
  }

  /** handle_net_close_connection: the last node does not wait for a new predecessor. */
  function HandleClose(n: Node): (Node, Out) {
    (n.(pred := None, mode := if n.lo == 0 && n.hi == LAST then Running else AwaitPred),
     SILENT.(dropPred := true))
  }

  /** The dispatch of poll_for_incoming_data, for a node in its main loop. */
  function Handle(self: Id, n: Node, m: Msg): (Node, Out) {
    match m
    case Insert(_, _) => HandleValue(n, m)
    case Remove(_) => HandleValue(n, m)
    case Lookup(_, _) => HandleValue(n, m)
    case Join(src, maxSpan, maxId) => HandleJoin(self, n, src, maxSpan, maxId)
    case NewRange(newLo, newHi) => HandleNewRange(n, newLo, newHi)
    case Leaving(next) => HandleLeaving(self, n, next)
    case Close => HandleClose(n)
    case JoinResponse(_, _, _) => (n, FAULT)
    case NewRangeResponse => (n, FAULT)
  }

  /** q7 after the accept, then q8: take the range, connect to the successor, start with an empty table. */
  function HandleJoinResponse(n: Node, m: Msg): (Node, Out) {
    if m.JoinResponse? then
      (n.(mode := Running, lo := m.lo, hi := m.hi, store := EMPTY_STORE,
          succ := Some(m.next), succAddr := m.next),
       SILENT.(connect := true))
    else (n, FAULT)
  }

  /** The first half of shutdown_proceedure: offer the range to the successor or the predecessor. */
  function OfferRange(n: Node): (Node, Out) {
    (n.(mode := LeaveWait),
     if n.lo == 0 then SILENT.(after := [NewRange(n.lo, n.hi)]) else SILENT.(back := [NewRange(n.lo, n.hi)]))
  }

  /** The second half: all entries to the heir, then NET_CLOSE and NET_LEAVING. */
  function Farewell(n: Node, m: Msg): Out {
    if !m.NewRangeResponse? then FAULT
    else
      var entries := Inserts(n.store.keys, n.store.vals);
      if n.lo == 0 then SILENT.(after := entries + [Close], back := [Leaving(n.succAddr)])
      else SILENT.(after := [Close], back := entries + [Leaving(n.succAddr)])
  }

  /** The error exits, all of them: a PDU that the main loop does not read, a request or a response without a link
      to send it on, a token at a node with one neighbour link, an offer that no end of the range grows by. */
  lemma FaultIff(self: Id, n: Node, m: Msg)
    ensures Handle(self, n, m).1.fault <==>
            match m {
              case Insert(k, _) => !Owns(n, k) && n.succ == None
              case Remove(k) => !Owns(n, k) && n.succ == None
              case Lookup(k, _) => !Owns(n, k) && n.succ == None
              case Join(_, _, _) => n.pred.None? != n.succ.None?
              case NewRange(newLo, newHi) =>
                if newLo < n.lo then n.pred == None else newHi <= n.hi || n.succ == None
              case JoinResponse(_, _, _) => true
              case NewRangeResponse => true
              case Leaving(_) => false
              case Close => false
            }
    ensures HandleJoinResponse(n, m).1.fault <==> !m.JoinResponse?
    ensures Farewell(n, m).fault <==> !m.NewRangeResponse?
  {
    hide Handover, Owns;
  }

  /** The transferred entries are exactly the listed keys with their values. */
  lemma {:induction false} InsertsMembers(keys: seq<Ssn>, vals: map<Ssn, Value>)
    ensures forall m :: m in Inserts(keys, vals) <==>
              m.Insert? && m.k in keys && m.k in vals && m.v == vals[m.k]
  {
    if keys != [] {
      assert keys == [keys[0]] + keys[1..];
      InsertsMembers(keys[1..], vals);
    }
  }
}
