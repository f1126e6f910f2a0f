/** A clean ring with one message travelling in it: who reads the message, and what is left. */
module NetSingle {
  import opened Base
  import opened NodeSpec
  import opened Network
  import opened Ring
  import opened NetInv
  import opened NetLeave

  /** The only message in flight is m, and b will read it. */
  ghost predicate OnlyMessage(s: Net, m: Msg, b: Id) {
    && b in s.nodes
    && (forall x: Id, y: Id {:trigger Up(s, x, y)} :: Up(s, x, y) == [])
    && (|| (s.udp == multiset{Packet(b, m)}
            && (forall x: Id, y: Id {:trigger Down(s, x, y)} :: Down(s, x, y) == []))
        || (s.udp == multiset{} && s.nodes[b].pred.Some?
            && (forall x: Id, y: Id {:trigger Down(s, x, y)} ::
                  Down(s, x, y) == if (x, y) == (s.nodes[b].pred.value, b) then [m] else [])))
  }

  /** Somebody from outside, or a leaver, starts something. */
  ghost predicate External(e: Event) {
    e.ClientSend? || e.JoinStart? || e.LeaveStart?
  }

  /** Nothing else can happen than that b reads m. */
  lemma OnlyReader(s: Net, sh: Shape, extra: set<Id>, m: Msg, b: Id, e: Event)
    requires InOrder(s, sh, extra) && OnlyMessage(s, m, b) && Enabled(s, e)
    requires External(e) ==> Quiescent(s)
    ensures Delivers(e) && DeliveryOf(s, e).b == b && DeliveryOf(s, e).m == m
  {
    NotQuiescent(s, m, b);
    if e.RecvPred? || e.RecvSucc? || e.Accept? {
      assert if Member(sh, e.b) then CleanNode(s, sh, e.b) else Fresh(s, e.b);
    }
  }

  lemma NotQuiescent(s: Net, m: Msg, b: Id)
    requires OnlyMessage(s, m, b)
    ensures !Quiescent(s)
  {
    if s.udp == multiset{} {
      assert Down(s, s.nodes[b].pred.value, b) == [m];
    }
  }

  lemma TakenRest(s: Net, m: Msg, b: Id, e: Event)
    requires OnlyMessage(s, m, b) && Enabled(s, e)
    requires Delivers(e) && DeliveryOf(s, e).b == b && DeliveryOf(s, e).m == m
    ensures var rest := DeliveryOf(s, e).rest;
            && Still(rest) && rest.nodes == s.nodes && rest.leaving == s.leaving
            && (forall a {:trigger Backlog(rest, a)} :: Backlog(rest, a) == Backlog(s, a))
  {
    if e.RecvUdp? {
      TakenUdp(s, m, e.p);
    } else if e.RecvPred? {
      TakenDown(s, m, b);
    }
  }

  lemma TakenUdp(s: Net, m: Msg, p: Packet)
    requires OnlyMessage(s, m, p.dest) && p in s.udp
    ensures Still(s.(udp := s.udp - multiset{p}))
  {
    var rest := s.(udp := s.udp - multiset{p});
    assert s.udp == multiset{Packet(p.dest, m)};
    forall x: Id, y: Id ensures Down(rest, x, y) == Down(s, x, y) && Up(rest, x, y) == Up(s, x, y) {}
  }

  lemma TakenDown(s: Net, m: Msg, b: Id)
    requires OnlyMessage(s, m, b) && s.nodes[b].pred.Some? && Down(s, s.nodes[b].pred.value, b) != []
    ensures Still(PopDown(s, s.nodes[b].pred.value, b))
  {
    var rest := PopDown(s, s.nodes[b].pred.value, b);
    forall x: Id, y: Id {:trigger Down(rest, x, y)} ensures Down(rest, x, y) == [] {
      assert Down(s, x, y) == [] || Down(s, x, y) == [m];
    }
    forall x: Id, y: Id {:trigger Up(rest, x, y)} ensures Up(rest, x, y) == [] {
      assert Up(s, x, y) == [];
    }
  }

  /** What b leaves behind when it has taken m in hand. */
  lemma RestIsStill(s: Net, sh: Shape, extra: set<Id>, m: Msg, b: Id, e: Event)
    requires InOrder(s, sh, extra) && OnlyMessage(s, m, b) && Enabled(s, e)
    requires Delivers(e) && DeliveryOf(s, e).b == b && DeliveryOf(s, e).m == m
    ensures var rest := DeliveryOf(s, e).rest;
            InOrder(rest, sh, extra) && Still(rest) && rest.nodes == s.nodes
  {
    hide PopUp, PopDown, Tiles, DataOk;
    TakenRest(s, m, b, e);
    hide DeliveryOf, OnlyMessage;
    var rest := DeliveryOf(s, e).rest;
    forall a {:trigger Member(sh, a)} | Member(sh, a) ensures CleanNode(rest, sh, a) {
      assert CleanNode(s, sh, a);
    }
  }

  /** Forwarding puts the message in front of the ring successor. */
  lemma ForwardedIsOnly(s: Net, sh: Shape, extra: set<Id>, m: Msg, b: Id)
    requires InOrder(s, sh, extra) && Still(s) && Member(sh, b) && sh.nxt[b] != b
    ensures var s' := PushDown(s, b, sh.nxt[b], [m]);
            InOrder(s', sh, extra) && OnlyMessage(s', m, sh.nxt[b])
  {
    var c := sh.nxt[b];
    var s' := PushDown(s, b, c, [m]);
    assert Member(sh, c) && CleanNode(s, sh, c) && sh.prv[c] == b;
    forall a ensures Backlog(s', a) == Backlog(s, a) {}
    forall a {:trigger Member(sh, a)} | Member(sh, a) ensures CleanNode(s', sh, a) {
      assert CleanNode(s, sh, a);
    }
    assert sh.nxt[c] != c by { assert sh.prv[sh.nxt[c]] == c; }
    OneMessageDown(s, b, c, m);
  }
}
