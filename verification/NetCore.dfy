/** One step of a network in which nobody is leaving: the invariant is kept and no handler
    reaches an exit_with_error or unexpected-PDU path. */
module NetCore {
  import opened Base
  import opened NodeSpec
  import opened Network
  import opened Ring
  import opened NetInv
  import opened NetSteps
  import opened NetJoin

  /** If e makes a node split its range, that range holds more than one value. */
  ghost predicate SplitGuard(s: Net, e: Event)
    requires Enabled(s, e)
  {
    Delivers(e) ==>
      var d := DeliveryOf(s, e);
      Splits(s, d.b, d.m) ==> s.nodes[d.b].lo < s.nodes[d.b].hi
  }

  /** What the first message of a running member's predecessor stream can be. */
  lemma RunningHead(s: Net, sh: Shape, b: Id)
    requires Locals(s, sh) && b in s.nodes && s.nodes[b].mode == Running && s.nodes[b].pred.Some?
    requires Down(s, s.nodes[b].pred.value, b) != []
    ensures var m := Down(s, s.nodes[b].pred.value, b)[0]; PlainMsg(m) || m == Close
  {
    IsMember(s, sh, b);
    assert LocalOk(s, sh, b);
    var p := Pipe(s, b);
    var from := LinkFrom(s, sh.prv[b], b);
    var ch := Down(s, p[0], b);
    assert p[0] == s.nodes[b].pred.value;
    assert StreamOk(Rest(ch, false && 0 == 0), from.Some? && 0 == |p| - 1);
    if Finished(ch) && |ch| > 1 {
      assert ch[..|ch| - 1][0] == ch[0];
    }
  }

  /** Members stay members. */
  ghost predicate Grows(sh: Shape, sh': Shape) {
    forall b {:trigger Member(sh, b)} :: Member(sh, b) ==> Member(sh', b)
  }

  /** A running member handles a plain message that was taken from a stream or the bag. */
  lemma HandlePlainOk(s: Net, sh: Shape, loc: map<Id, Loc>, b: Id, m: Msg) returns (sh': Shape, loc': map<Id, Loc>)
    requires Normal(s, sh, loc) && b in s.nodes && s.nodes[b].mode == Running && InHand(s, sh, loc, m)
    requires Splits(s, b, m) ==> s.nodes[b].lo < s.nodes[b].hi
    ensures !React(s, b, m).1.fault
    ensures Normal(Receive(s, b, m), sh', loc')
    ensures if Splits(s, b, m) then Member(sh, b) && IsInsertion(sh, sh', b, m.src) && loc' == loc
            else sh' == sh && loc' == (if m.Join? && Member(sh, b) then loc[m.src := OnLink(b, sh.nxt[b])] else loc)
  {
    sh', loc' := sh, loc;
    if IsRequest(m) {
      ValueOk(s, sh, loc, b, m);
    } else if Splits(s, b, m) {
      SplitEffect(s, sh, loc, b, m);
      sh' := SplitOk(s, sh, loc, b, m);
    } else {
      TokenPassOk(s, sh, loc, b, m);
      loc' := loc[m.src := OnLink(b, sh.nxt[b])];
    }
  }

  lemma RecvUdpOk(s: Net, sh: Shape, loc: map<Id, Loc>, e: Event) returns (sh': Shape, loc': map<Id, Loc>)
    requires Normal(s, sh, loc) && Enabled(s, e) && SplitGuard(s, e) && e.RecvUdp?
    ensures Normal(Do(s, e), sh', loc') && !Faults(s, e) && Grows(sh, sh')
  {
    hide Locals, LocalOk, Streams, Tokens, Handle;
    var rest := s.(udp := s.udp - multiset{e.p});
    PopUdpOk(s, sh, loc, e.p);
    sh', loc' := HandlePlainOk(rest, sh, LocWithout(loc, e.p.m), e.p.dest, e.p.m);
  }

  lemma RecvPlainOk(s: Net, sh: Shape, loc: map<Id, Loc>, e: Event) returns (sh': Shape, loc': map<Id, Loc>)
    requires Normal(s, sh, loc) && Enabled(s, e) && SplitGuard(s, e) && e.RecvPred?
    requires s.nodes[e.b].mode == Running && PlainMsg(Down(s, s.nodes[e.b].pred.value, e.b)[0])
    ensures Normal(Do(s, e), sh', loc') && !Faults(s, e) && Grows(sh, sh')
  {
    hide Locals, Streams, LocalOk, Linked, Tokens, Handle;
    var x := s.nodes[e.b].pred.value;
    var m := Down(s, x, e.b)[0];
    PopDownOk(s, sh, loc, e.b);
    sh', loc' := HandlePlainOk(PopDown(s, x, e.b), sh, LocWithout(loc, m), e.b, m);
  }

  lemma RecvPredOk(s: Net, sh: Shape, loc: map<Id, Loc>, e: Event) returns (sh': Shape, loc': map<Id, Loc>)
    requires Normal(s, sh, loc) && Enabled(s, e) && SplitGuard(s, e) && e.RecvPred?
    ensures Normal(Do(s, e), sh', loc') && !Faults(s, e) && Grows(sh, sh')
  {
    sh', loc' := sh, loc;
    IsMember(s, sh, e.b);
    if s.nodes[e.b].mode == JoinWait {
      AnswerOk(s, sh, loc, e);
    } else {
      assert LocalOk(s, sh, e.b);
      RunningHead(s, sh, e.b);
      if Down(s, s.nodes[e.b].pred.value, e.b)[0] == Close {
        CloseOk(s, sh, loc, e);
      } else {
        sh', loc' := RecvPlainOk(s, sh, loc, e);
      }
    }
  }

  /** Every event but the start of a leave keeps the invariant and faults nowhere. */
  lemma NormalStep(s: Net, sh: Shape, loc: map<Id, Loc>, e: Event) returns (sh': Shape, loc': map<Id, Loc>)
    requires Normal(s, sh, loc) && Enabled(s, e) && SplitGuard(s, e) && !e.LeaveStart?
    ensures Normal(Do(s, e), sh', loc') && !Faults(s, e) && Grows(sh, sh')
  {
    hide Handle, Linked, LocalOk, Do, Tokens;
    sh', loc' := sh, loc;
    match e
    case ClientSend(_, _) => ClientSendOk(s, sh, loc, e);
    case JoinStart(j, _) =>
      JoinStartOk(s, sh, loc, e);
      loc' := loc[j := InBag];
    case Accept(_) => AcceptOk(s, sh, loc, e);
    case RecvUdp(_) => sh', loc' := RecvUdpOk(s, sh, loc, e);
    case RecvPred(_) => sh', loc' := RecvPredOk(s, sh, loc, e);
    case RecvSucc(b) =>
    case LeaveDone =>
    case LeaveStart(_) =>
  }
}
