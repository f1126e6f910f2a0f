/** The network as a step system: nodes, the FIFO byte streams of their TCP links (as message
    sequences), connections waiting to be accepted, and a bag of UDP packets. A scheduler picks any
    enabled event; every event runs one handler to its end. */
module Network {
  import opened Base
  import opened StoreSpec
  import opened NodeSpec

  datatype Packet = Packet(dest: Id, m: Msg)

  /** A TCP link is named by the node that opened it and the node that accepts it. `down` carries
      what the opener writes, `up` what the accepter writes; an absent stream is empty. */
  type Link = (Id, Id)

  datatype Net = Net(nodes: map<Id, Node>,
                     backlog: map<Id, seq<Id>>,
                     down: map<Link, seq<Msg>>,
                     up: map<Link, seq<Msg>>,
                     udp: multiset<Packet>,
                     leaving: bool)      // a leave has started and has not drained yet

  function Down(s: Net, x: Id, y: Id): seq<Msg> {
    if (x, y) in s.down then s.down[(x, y)] else []
  }

  function Up(s: Net, x: Id, y: Id): seq<Msg> {
    if (x, y) in s.up then s.up[(x, y)] else []
  }

  function Backlog(s: Net, b: Id): seq<Id> {
    if b in s.backlog then s.backlog[b] else []
  }

  function PushDown(s: Net, x: Id, y: Id, ms: seq<Msg>): Net {
    s.(down := s.down[(x, y) := Down(s, x, y) + ms])
  }

  function PushUp(s: Net, x: Id, y: Id, ms: seq<Msg>): Net {
    s.(up := s.up[(x, y) := Up(s, x, y) + ms])
  }

  /** Closing a socket discards whatever its streams still carry. */
  function CloseLink(s: Net, x: Id, y: Id): Net {
    s.(down := s.down[(x, y) := []], up := s.up[(x, y) := []])
  }

  /** A new connection starts with empty streams and waits at the remote listening socket. */
  function Connect(s: Net, x: Id, y: Id): Net {
    CloseLink(s, x, y).(backlog := s.backlog[y := Backlog(s, y) + [x]])
  }

  /** The effects of one handler of node b, which was n and becomes n'. */
  function Emit(s: Net, b: Id, n: Node, n': Node, out: Out): Net {
    var s1 := if out.dropPred && n.pred.Some? then CloseLink(s, n.pred.value, b) else s;
    var s2 := if out.dropSucc && n.succ.Some? then CloseLink(s1, b, n.succ.value) else s1;
    var s3 := if out.before != [] && n.succ.Some? then PushDown(s2, b, n.succ.value, out.before) else s2;
    var s4 := if out.connect && n'.succ.Some? then Connect(s3, b, n'.succ.value) else s3;
    var s5 := if out.after != [] && n'.succ.Some? then PushDown(s4, b, n'.succ.value, out.after) else s4;
    var s6 := if out.back != [] && n.pred.Some? then PushUp(s5, n.pred.value, b, out.back) else s5;
    s6.(nodes := s6.nodes[b := n'])
  }

  /** Node b handles message m, which has already been taken from its stream or from the bag. */
  function React(s: Net, b: Id, m: Msg): (Node, Out)
    requires b in s.nodes
  {
    if s.nodes[b].mode == JoinWait then HandleJoinResponse(s.nodes[b], m) else Handle(b, s.nodes[b], m)
  }

  function Receive(s: Net, b: Id, m: Msg): Net
    requires b in s.nodes
  {
    var (n', out) := React(s, b, m);
    Emit(s, b, s.nodes[b], n', out)
  }

  /** A leaver that got its answer ships everything, says goodbye on both links and is gone. */
  function Depart(s: Net, b: Id, m: Msg): Net
    requires b in s.nodes
  {
    var s' := Emit(s, b, s.nodes[b], s.nodes[b], Farewell(s.nodes[b], m));
    s'.(nodes := s'.nodes - {b}, backlog := s'.backlog - {b})
  }

  function PopDown(s: Net, x: Id, y: Id): Net
    requires Down(s, x, y) != []
  {
    s.(down := s.down[(x, y) := Down(s, x, y)[1..]])
  }

  function PopUp(s: Net, x: Id, y: Id): Net
    requires Up(s, x, y) != []
  {
    s.(up := s.up[(x, y) := Up(s, x, y)[1..]])
  }

  datatype Event =
    | ClientSend(dest: Id, m: Msg)       // a client sends a request to any live node
    | JoinStart(j: Id, entry: Id)        // a node starts and sends NET_JOIN to any live node
    | LeaveStart(l: Id)                  // SIGINT at a connected node
    | LeaveDone                          // the leave has drained
    | RecvUdp(p: Packet)
    | RecvPred(b: Id)                    // b reads its predecessor socket
    | RecvSucc(b: Id)                    // b reads its successor socket
    | Accept(b: Id)                      // the accept that b is blocked in returns

  predicate InRing(n: Node) {
    n.mode != Joining && n.mode != JoinWait
  }

  predicate IsRequest(m: Msg) {
    m.Insert? || m.Remove? || m.Lookup?
  }

  /** Nothing is in flight and every node is in its main loop. */
  ghost predicate Quiescent(s: Net) {
    && s.udp == multiset{}
    && (forall x, y :: Down(s, x, y) == [] && Up(s, x, y) == [])
    && (forall b :: b in s.nodes ==> s.nodes[b].mode == Running && Backlog(s, b) == [])
  }

  /** When an event can happen. Requests and joins need a live entry node and no leave under way;
      a leave needs a quiet network; a blocked node reads nothing. */
  ghost predicate Enabled(s: Net, e: Event) {
    match e
    case ClientSend(dest, m) => !s.leaving && dest in s.nodes && InRing(s.nodes[dest]) && IsRequest(m)
    case JoinStart(j, entry) =>
      !s.leaving && j != 0 && j !in s.nodes && entry in s.nodes && InRing(s.nodes[entry])
    case LeaveStart(l) =>
      && !s.leaving && Quiescent(s) && l in s.nodes
      && (s.nodes[l].pred.Some? || s.nodes[l].succ.Some?)
    case LeaveDone => s.leaving && Quiescent(s)
    case RecvUdp(p) => p in s.udp && p.dest in s.nodes && s.nodes[p.dest].mode == Running
    case RecvPred(b) =>
      && b in s.nodes && s.nodes[b].pred.Some? && Down(s, s.nodes[b].pred.value, b) != []
      && (s.nodes[b].mode == Running || s.nodes[b].mode == JoinWait
          || (s.nodes[b].mode == LeaveWait && s.nodes[b].lo != 0))
    case RecvSucc(b) =>
      && b in s.nodes && s.nodes[b].succ.Some? && Up(s, b, s.nodes[b].succ.value) != []
      && (s.nodes[b].mode == Running || (s.nodes[b].mode == LeaveWait && s.nodes[b].lo == 0))
    case Accept(b) =>
      b in s.nodes && (s.nodes[b].mode == Joining || s.nodes[b].mode == AwaitPred) && Backlog(s, b) != []
  }

  /** The node that handles a message in event e, the message, and the network without it. */
  datatype Delivery = Delivery(b: Id, m: Msg, rest: Net)

  predicate Delivers(e: Event) {
    e.RecvUdp? || e.RecvPred? || e.RecvSucc?
  }

  ghost function DeliveryOf(s: Net, e: Event): Delivery
    requires Enabled(s, e) && Delivers(e)
  {
    match e
    case RecvUdp(p) => Delivery(p.dest, p.m, s.(udp := s.udp - multiset{p}))
    case RecvPred(b) => var x := s.nodes[b].pred.value; Delivery(b, Down(s, x, b)[0], PopDown(s, x, b))
    case RecvSucc(b) => var y := s.nodes[b].succ.value; Delivery(b, Up(s, b, y)[0], PopUp(s, b, y))
  }

  /** What one event does. */
  ghost function Do(s: Net, e: Event): Net
    requires Enabled(s, e)
  {
    match e
    case ClientSend(dest, m) => s.(udp := s.udp + multiset{Packet(dest, m)})
    case JoinStart(j, entry) =>
      s.(nodes := s.nodes[j := Node(Joining, 0, 0, EMPTY_STORE, None, 0, None)],
         backlog := s.backlog[j := []],
         udp := s.udp + multiset{Packet(entry, Join(j, 0, 0))})
    case LeaveStart(l) =>
      var (n', out) := OfferRange(s.nodes[l]);
      Emit(s, l, s.nodes[l], n', out).(leaving := true)
    case LeaveDone => s.(leaving := false)
    case Accept(b) =>
      var n := s.nodes[b];
      s.(nodes := s.nodes[b := n.(pred := Some(Backlog(s, b)[0]),
                                  mode := if n.mode == Joining then JoinWait else Running)],
         backlog := s.backlog[b := Backlog(s, b)[1..]])
    case _ =>
      var d := DeliveryOf(s, e);
      if s.nodes[d.b].mode == LeaveWait then Depart(d.rest, d.b, d.m) else Receive(d.rest, d.b, d.m)
  }

  /** Event e drives a node into one of its exit_with_error or unexpected-PDU paths. */
  ghost predicate Faults(s: Net, e: Event)
    requires Enabled(s, e)
  {
    Delivers(e) &&
    var d := DeliveryOf(s, e);
    if s.nodes[d.b].mode == LeaveWait then Farewell(s.nodes[d.b], d.m).fault else React(s, d.b, d.m).1.fault
  }

  /** A fresh network. */
  function Initial(id: Id): Net {
    Net(map[id := FIRST_NODE], map[], map[], map[], multiset{}, false)
  }

  /** A run is a sequence of events, each enabled when it happens. */
  ghost predicate IsRun(s: Net, es: seq<Event>)
    decreases |es|
  {
    es == [] || (Enabled(s, es[0]) && IsRun(Do(s, es[0]), es[1..]))
  }

  ghost function After(s: Net, es: seq<Event>): Net
    requires IsRun(s, es)
    decreases |es|
  {
    if es == [] then s else After(Do(s, es[0]), es[1..])
  }
}
