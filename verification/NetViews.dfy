/** Single events and effects, seen from outside: what they do to nodes, streams and backlogs. */
module NetViews {
  import opened Base
  import opened NodeSpec
  import opened Network

  // ---- events ----

  /** A node that is not leaving reads its predecessor socket. */
  lemma ReadsPred(s: Net, b: Id)
    requires Enabled(s, RecvPred(b)) && s.nodes[b].mode != LeaveWait
    ensures var x := s.nodes[b].pred.value;
            && Do(s, RecvPred(b)) == Receive(PopDown(s, x, b), b, Down(s, x, b)[0])
            && (Faults(s, RecvPred(b)) <==> React(s, b, Down(s, x, b)[0]).1.fault)
  {
    hide Handle, HandleJoinResponse, Emit, Depart;
  }

  lemma ReadsSucc(s: Net, b: Id)
    requires Enabled(s, RecvSucc(b)) && s.nodes[b].mode != LeaveWait
    ensures var y := s.nodes[b].succ.value;
            && Do(s, RecvSucc(b)) == Receive(PopUp(s, b, y), b, Up(s, b, y)[0])
            && (Faults(s, RecvSucc(b)) <==> React(s, b, Up(s, b, y)[0]).1.fault)
  {
    hide Handle, HandleJoinResponse, Emit, Depart;
  }

  /** React looks at the node only. */
  lemma SameReaction(s: Net, s': Net, b: Id, m: Msg)
    requires b in s.nodes && b in s'.nodes && s'.nodes[b] == s.nodes[b]
    ensures React(s', b, m) == React(s, b, m)
  {
    hide Handle, HandleJoinResponse;
  }

  // ---- effects ----

  /** No effect on any link. */
  ghost predicate Silent(out: Out) {
    out.before == [] == out.after == out.back && !out.connect && !out.dropPred && !out.dropSucc && !out.fault
  }

  lemma QuietEmit(s: Net, b: Id, n: Node, n': Node, out: Out)
    requires Silent(out)
    ensures Emit(s, b, n, n', out) == s.(nodes := s.nodes[b := n'])
  {
    hide Connect, CloseLink, PushUp, PushDown;
  }

  /** A node closes its predecessor socket. */
  lemma DropEmit(s: Net, b: Id, n: Node, n': Node, x: Id)
    requires n.pred == Some(x)
    ensures Emit(s, b, n, n', SILENT.(dropPred := true)) == CloseLink(s, x, b).(nodes := s.nodes[b := n'])
  {
    hide Connect, PushUp, PushDown;
  }

  /** A node that only writes to its successor. */
  lemma ForwardEmit(s: Net, b: Id, n: Node, y: Id, m: Msg)
    requires b in s.nodes && s.nodes[b] == n && n.succ == Some(y)
    ensures Emit(s, b, n, n, SILENT.(after := [m])) == PushDown(s, b, y, [m])
  {
    hide Connect, CloseLink, PushUp;
    assert s.nodes[b := n] == s.nodes;
  }

  lemma CloseReaction(s: Net, b: Id, x: Id)
    requires b in s.nodes && s.nodes[b].mode == Running && s.nodes[b].pred == Some(x)
    ensures !React(s, b, Close).1.fault
    ensures Receive(s, b, Close) == CloseLink(s, x, b).(nodes := s.nodes[b := HandleClose(s.nodes[b]).0])
  {
    hide HandleValue, HandleJoin, HandleNewRange, HandleLeaving, HandleJoinResponse;
    DropEmit(s, b, s.nodes[b], HandleClose(s.nodes[b]).0, x);
    hide Emit;
  }

  // ---- streams ----

  lemma PopDownViews(s: Net, x: Id, y: Id)
    requires Down(s, x, y) != []
    ensures var s' := PopDown(s, x, y);
            && s' == s.(down := s'.down)
            && (forall a: Id, b: Id {:trigger Down(s', a, b)} ::
                  Down(s', a, b) == if (a, b) == (x, y) then Down(s, x, y)[1..] else Down(s, a, b))
            && (forall a: Id, b: Id {:trigger Up(s', a, b)} :: Up(s', a, b) == Up(s, a, b))
            && (forall a {:trigger Backlog(s', a)} :: Backlog(s', a) == Backlog(s, a))
  {
  }

  lemma PopUpViews(s: Net, x: Id, y: Id)
    requires Up(s, x, y) != []
    ensures var s' := PopUp(s, x, y);
            && s' == s.(up := s'.up)
            && (forall a: Id, b: Id {:trigger Up(s', a, b)} ::
                  Up(s', a, b) == if (a, b) == (x, y) then Up(s, x, y)[1..] else Up(s, a, b))
            && (forall a: Id, b: Id {:trigger Down(s', a, b)} :: Down(s', a, b) == Down(s, a, b))
            && (forall a {:trigger Backlog(s', a)} :: Backlog(s', a) == Backlog(s, a))
  {
  }

  lemma CloseViews(s: Net, x: Id, y: Id)
    ensures var s' := CloseLink(s, x, y);
            && s' == s.(down := s'.down, up := s'.up)
            && (forall a: Id, b: Id {:trigger Down(s', a, b)} ::
                  Down(s', a, b) == if (a, b) == (x, y) then [] else Down(s, a, b))
            && (forall a: Id, b: Id {:trigger Up(s', a, b)} ::
                  Up(s', a, b) == if (a, b) == (x, y) then [] else Up(s, a, b))
            && (forall a {:trigger Backlog(s', a)} :: Backlog(s', a) == Backlog(s, a))
  {
  }

  /** Other nodes, same streams. */
  lemma NodesViews(s: Net, s': Net)
    requires s' == s.(nodes := s'.nodes)
    ensures forall a {:trigger Backlog(s', a)} :: Backlog(s', a) == Backlog(s, a)
    ensures forall x: Id, y: Id {:trigger Down(s', x, y)} :: Down(s', x, y) == Down(s, x, y)
    ensures forall x: Id, y: Id {:trigger Up(s', x, y)} :: Up(s', x, y) == Up(s, x, y)
  {
  }

  /** Node b has read a last NET_CLOSE_CONNECTION from x. */
  lemma ClosedViews(s: Net, b: Id, x: Id)
    requires Enabled(s, RecvPred(b)) && s.nodes[b].mode == Running
    requires s.nodes[b].pred == Some(x) && Down(s, x, b)[0] == Close
    ensures var s' := Do(s, RecvPred(b));
            && !Faults(s, RecvPred(b))
            && s'.nodes == s.nodes[b := HandleClose(s.nodes[b]).0]
            && s'.udp == s.udp && s'.leaving == s.leaving && s'.backlog == s.backlog
            && (forall y: Id, z: Id {:trigger Down(s', y, z)} ::
                  Down(s', y, z) == if (y, z) == (x, b) then [] else Down(s, y, z))
            && (forall y: Id, z: Id {:trigger Up(s', y, z)} ::
                  Up(s', y, z) == if (y, z) == (x, b) then [] else Up(s, y, z))
  {
    ReadsPred(s, b);
    hide Do, Enabled, Faults, React, HandleClose, Receive, PopDown, CloseLink;
    var rest := PopDown(s, x, b);
    PopDownViews(s, x, b);
    CloseReaction(rest, b, x);
    SameReaction(rest, s, b, Close);
    CloseViews(rest, x, b);
    NodesViews(CloseLink(rest, x, b), Do(s, RecvPred(b)));
  }

  // ---- answers ----

  lemma WriteEmit(s: Net, b: Id, n: Node, n': Node, y: Id, m: Msg)
    requires n'.succ == Some(y)
    ensures Emit(s, b, n, n', SILENT.(after := [m])) == PushDown(s, b, y, [m]).(nodes := s.nodes[b := n'])
  {
    hide Connect, CloseLink, PushUp;
  }

  lemma BackEmit(s: Net, b: Id, n: Node, n': Node, x: Id, m: Msg)
    requires n.pred == Some(x)
    ensures Emit(s, b, n, n', SILENT.(back := [m])) == PushUp(s, x, b, [m]).(nodes := s.nodes[b := n'])
  {
    hide Connect, CloseLink, PushDown;
  }

  lemma BothEmit(s: Net, b: Id, n: Node, y: Id, x: Id, down: seq<Msg>, up: seq<Msg>)
    requires n.succ == Some(y) && n.pred == Some(x) && down != [] && up != []
    ensures Emit(s, b, n, n, SILENT.(after := down, back := up))
            == PushUp(PushDown(s, b, y, down), x, b, up).(nodes := s.nodes[b := n])
  {
    hide Connect, CloseLink;
  }

  lemma PushDownViews(s: Net, x: Id, y: Id, ms: seq<Msg>)
    ensures var s' := PushDown(s, x, y, ms);
            && s' == s.(down := s'.down)
            && (forall a: Id, b: Id {:trigger Down(s', a, b)} ::
                  Down(s', a, b) == if (a, b) == (x, y) then Down(s, x, y) + ms else Down(s, a, b))
            && (forall a: Id, b: Id {:trigger Up(s', a, b)} :: Up(s', a, b) == Up(s, a, b))
            && (forall a {:trigger Backlog(s', a)} :: Backlog(s', a) == Backlog(s, a))
  {
  }

  lemma PushUpViews(s: Net, x: Id, y: Id, ms: seq<Msg>)
    ensures var s' := PushUp(s, x, y, ms);
            && s' == s.(up := s'.up)
            && (forall a: Id, b: Id {:trigger Up(s', a, b)} ::
                  Up(s', a, b) == if (a, b) == (x, y) then Up(s, x, y) + ms else Up(s, a, b))
            && (forall a: Id, b: Id {:trigger Down(s', a, b)} :: Down(s', a, b) == Down(s, a, b))
            && (forall a {:trigger Backlog(s', a)} :: Backlog(s', a) == Backlog(s, a))
  {
  }

  /** Node b reads its predecessor socket and only writes back to it. */
  lemma AnswersPred(s: Net, b: Id, x: Id, n': Node, m: Msg)
    requires Enabled(s, RecvPred(b)) && s.nodes[b].mode != LeaveWait && s.nodes[b].pred == Some(x)
    requires React(s, b, Down(s, x, b)[0]) == (n', SILENT.(back := [m]))
    ensures var s' := Do(s, RecvPred(b));
            && !Faults(s, RecvPred(b))
            && s'.nodes == s.nodes[b := n'] && s'.backlog == s.backlog && s'.udp == s.udp && s'.leaving == s.leaving
            && (forall y: Id, z: Id {:trigger Down(s', y, z)} ::
                  Down(s', y, z) == if (y, z) == (x, b) then Down(s, x, b)[1..] else Down(s, y, z))
            && (forall y: Id, z: Id {:trigger Up(s', y, z)} ::
                  Up(s', y, z) == if (y, z) == (x, b) then Up(s, x, b) + [m] else Up(s, y, z))
  {
    ReadsPred(s, b);
    var rest := PopDown(s, x, b);
    assert rest.nodes == s.nodes && b in s.nodes && Down(s, x, b) != [];
    SameReaction(s, rest, b, Down(s, x, b)[0]);
    hide Do, Enabled, Faults, React, PopDown, PushUp, Emit;
    PopDownViews(s, x, b);
    BackEmit(rest, b, s.nodes[b], n', x, m);
    PushUpViews(rest, x, b, [m]);
    NodesViews(PushUp(rest, x, b, [m]), Do(s, RecvPred(b)));
  }

  /** Node b reads its successor socket and only writes back to it. */
  lemma AnswersSucc(s: Net, b: Id, y: Id, n': Node, m: Msg)
    requires Enabled(s, RecvSucc(b)) && s.nodes[b].mode != LeaveWait && s.nodes[b].succ == Some(y) == n'.succ
    requires React(s, b, Up(s, b, y)[0]) == (n', SILENT.(after := [m]))
    ensures var s' := Do(s, RecvSucc(b));
            && !Faults(s, RecvSucc(b))
            && s'.nodes == s.nodes[b := n'] && s'.backlog == s.backlog && s'.udp == s.udp && s'.leaving == s.leaving
            && (forall x: Id, z: Id {:trigger Up(s', x, z)} ::
                  Up(s', x, z) == if (x, z) == (b, y) then Up(s, b, y)[1..] else Up(s, x, z))
            && (forall x: Id, z: Id {:trigger Down(s', x, z)} ::
                  Down(s', x, z) == if (x, z) == (b, y) then Down(s, b, y) + [m] else Down(s, x, z))
  {
    ReadsSucc(s, b);
    var rest := PopUp(s, b, y);
    assert rest.nodes == s.nodes && b in s.nodes && Up(s, b, y) != [];
    SameReaction(s, rest, b, Up(s, b, y)[0]);
    hide Do, Enabled, Faults, React, PopUp, PushDown, Emit;
    PopUpViews(s, b, y);
    WriteEmit(rest, b, s.nodes[b], n', y, m);
    PushDownViews(rest, b, y, [m]);
    NodesViews(PushDown(rest, b, y, [m]), Do(s, RecvSucc(b)));
  }
}
