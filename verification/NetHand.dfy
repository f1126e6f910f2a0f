/** One message and the books: taking it from a stream or the bag, and handling it. */
module NetHand {
  import opened Base
  import opened StoreSpec
  import opened NodeSpec
  import opened Network
  import opened Ring
  import opened NetInv
  import opened NetSteps
  import opened NetJoin
  import opened NetMap
  import opened NetLoad
  import opened NetBooks

  // ---- taking a message in hand ----

  /** A message that is no request leaves the books alone. */
  lemma NoRequestInHand(s: Net, sh: Shape, t: Table, extra: Option<Msg>, m: Msg)
    requires !IsRequest(m)
    ensures BooksHand(s, sh, t, extra, m) <==> Books(s, sh, t, extra)
  {
    forall x | IsRequest(x) ensures x != m {}
    if Books(s, sh, t, extra) {
      forall x {:trigger InFlight(s, sh, x)} | IsRequest(x)
        ensures InFlight(s, sh, x) + (if x == m then 1 else 0) == Due(s, t, x) + One(extra, x)
      {
        assert InFlight(s, sh, x) == Due(s, t, x) + One(extra, x);
      }
    }
    if BooksHand(s, sh, t, extra, m) {
      forall x {:trigger InFlight(s, sh, x)} | IsRequest(x)
        ensures InFlight(s, sh, x) == Due(s, t, x) + One(extra, x)
      {
        assert InFlight(s, sh, x) + (if x == m then 1 else 0) == Due(s, t, x) + One(extra, x);
      }
    }
  }

  lemma TakeFromPred(s: Net, sh: Shape, b: Id, t: Table, extra: Option<Msg>)
    requires Locals(s, sh) && Member(sh, b) && b in s.nodes && s.nodes[b].pred.Some?
    requires Down(s, s.nodes[b].pred.value, b) != [] && Books(s, sh, t, extra)
    ensures var x := s.nodes[b].pred.value; BooksHand(PopDown(s, x, b), sh, t, extra, Down(s, x, b)[0])
    ensures var x := s.nodes[b].pred.value; IsRequest(Down(s, x, b)[0]) ==> InFlight(s, sh, Down(s, x, b)[0]) > 0
  {
    hide Locals;
    var x := s.nodes[b].pred.value;
    var rest := PopDown(s, x, b);
    assert rest.nodes == s.nodes && StoredRight(rest, t);
    forall m {:trigger InFlight(rest, sh, m)} | IsRequest(m)
      ensures InFlight(rest, sh, m) + (if m == Down(s, x, b)[0] then 1 else 0) == Due(rest, t, m) + One(extra, m)
    {
      PopDownLoad(s, sh, b, Counts(m));
      assert InFlight(s, sh, m) == Due(s, t, m) + One(extra, m);
    }
    PopDownLoad(s, sh, b, Counts(Down(s, x, b)[0]));
  }

  lemma TakeFromBag(s: Net, sh: Shape, p: Packet, t: Table)
    requires Locals(s, sh) && p in s.udp && Books(s, sh, t, None)
    ensures BooksHand(s.(udp := s.udp - multiset{p}), sh, t, Some(p.m), p.m)
  {
    hide Locals;
    var rest := s.(udp := s.udp - multiset{p});
    BagBooks(s, rest, sh, t, None);
    forall m {:trigger InFlight(rest, sh, m)} | IsRequest(m)
      ensures InFlight(rest, sh, m) + (if m == p.m then 1 else 0) == Due(rest, t, m) + One(Some(p.m), m)
    {
      assert InFlight(rest, sh, m) == Due(rest, t, m) + One(None, m);
    }
  }

  /** The bag does not count. */
  lemma BagBooks(s: Net, s': Net, sh: Shape, t: Table, extra: Option<Msg>)
    requires Locals(s, sh) && Books(s, sh, t, extra)
    requires s'.nodes == s.nodes && s'.down == s.down && s'.backlog == s.backlog
    ensures Books(s', sh, t, extra)
  {
    hide Locals;
    forall b ensures Backlog(s', b) == Backlog(s, b) {}
    forall m {:trigger InFlight(s', sh, m)} ensures InFlight(s', sh, m) == InFlight(s, sh, m) {
      QuietLoad(s, s', sh, Counts(m));
    }
    SameBooks(s, s', sh, t, extra);
  }

  // ---- handling it ----

  lemma HandledApplied(s: Net, b: Id, m: Msg)
    requires b in s.nodes && IsRequest(m) && Owns(s.nodes[b], m.k) && StoreOk(s.nodes[b].store)
    ensures Applied(s, s.(nodes := s.nodes[b := HandleValue(s.nodes[b], m).0]), b, m)
    ensures HandleValue(s.nodes[b], m).0.pred == s.nodes[b].pred
  {
    hide Owns;
    HandledVals(s.nodes[b], m);
  }

  lemma AppliedFlight(s: Net, sh: Shape, b: Id, n': Node)
    requires Locals(s, sh) && b in s.nodes && n'.pred == s.nodes[b].pred
    ensures var s' := s.(nodes := s.nodes[b := n']);
            forall x {:trigger InFlight(s', sh, x)} :: InFlight(s', sh, x) == InFlight(s, sh, x)
  {
    hide Locals;
    var s' := s.(nodes := s.nodes[b := n']);
    forall a ensures Backlog(s', a) == Backlog(s, a) {}
    forall x {:trigger InFlight(s', sh, x)} ensures InFlight(s', sh, x) == InFlight(s, sh, x) {
      QuietLoad(s, s', sh, Counts(x));
    }
  }

  /** Node b takes request m at its word, and it is not a transfer that is due. */
  ghost predicate IsDone(s: Net, t: Table, b: Id, m: Msg)
    requires b in s.nodes
  {
    IsRequest(m) && Owns(s.nodes[b], m.k) && Due(s, t, m) == 0
  }

  lemma OwnedBooks(s: Net, sh: Shape, loc: map<Id, Loc>, b: Id, m: Msg, t: Table, extra: Option<Msg>)
    requires Normal(s, sh, loc) && b in s.nodes && s.nodes[b].mode == Running && IsRequest(m) && Owns(s.nodes[b], m.k)
    requires BooksHand(s, sh, t, extra, m)
    ensures Due(s, t, m) == 1 ==> Books(Receive(s, b, m), sh, t, extra)
    ensures Due(s, t, m) == 0 && Uncrossed(s, sh, m.k) ==>
              Books(Receive(s, b, m), sh, Apply(t, m), None) && extra == Some(m)
  {
    hide Normal, Receive, HandleValue, Owns, Books, BooksHand, Applied, Uncrossed, Due;
    ValueOk(s, sh, loc, b, m);
    MemberFields(s, sh, loc, b);
    NormalLocals(s, sh, loc);
    HandledApplied(s, b, m);
    AppliedFlight(s, sh, b, HandleValue(s.nodes[b], m).0);
    if Due(s, t, m) == 1 {
      TransferBooks(s, Receive(s, b, m), sh, loc, t, extra, b, m);
    } else if Due(s, t, m) == 0 && Uncrossed(s, sh, m.k) {
      NothingDue(s, sh, t, extra, m);
      DoneBooks(s, Receive(s, b, m), sh, loc, t, extra, b, m);
    }
  }

  /** The owner answers from the map. */
  lemma OwnedReply(s: Net, sh: Shape, loc: map<Id, Loc>, b: Id, m: Msg, t: Table, extra: Option<Msg>)
    requires Normal(s, sh, loc) && b in s.nodes && s.nodes[b].mode == Running && IsDone(s, t, b, m)
    requires BooksHand(s, sh, t, extra, m) && Uncrossed(s, sh, m.k)
    ensures OneReply(React(s, b, m).1) == AnswerTo(t, m)
  {
    hide Normal, Uncrossed, InFlight, KeyStored;
    ValueReaction(s, b, m);
    hide React;
    NothingDue(s, sh, t, extra, m);
    OwnerStores(s, sh, loc, b, m.k);
  }

  lemma AnsweredBooks(s: Net, sh: Shape, loc: map<Id, Loc>, b: Id, m: Msg, t: Table, extra: Option<Msg>)
    returns (sh': Shape)
    requires Normal(s, sh, loc) && InHand(s, sh, loc, m) && Splits(s, b, m) && s.nodes[b].lo < s.nodes[b].hi
    requires BooksHand(s, sh, t, extra, m)
    ensures Normal(Receive(s, b, m), sh', loc) && Books(Receive(s, b, m), sh', t, extra)
  {
    hide Normal, Receive, Books, BooksHand, AfterSplit, IsInsertion, SplitSetting;
    NoRequestInHand(s, sh, t, extra, m);
    SplitEffect(s, sh, loc, b, m);
    sh' := SplitOk(s, sh, loc, b, m);
    MemberFields(s, sh, loc, b);
    SplitIsSetting(s, sh, sh', loc, b, m);
    SplitBooks(s, Receive(s, b, m), sh, sh', b, m.src, t, extra);
  }

  /** What a message in hand does to the books. */
  lemma HandBooks(s: Net, sh: Shape, loc: map<Id, Loc>, b: Id, m: Msg, t: Table, extra: Option<Msg>)
    returns (sh': Shape, loc': map<Id, Loc>)
    requires Normal(s, sh, loc) && b in s.nodes && s.nodes[b].mode == Running && InHand(s, sh, loc, m)
    requires Splits(s, b, m) ==> s.nodes[b].lo < s.nodes[b].hi
    requires BooksHand(s, sh, t, extra, m)
    ensures Normal(Receive(s, b, m), sh', loc')
    ensures !IsDone(s, t, b, m) ==> Books(Receive(s, b, m), sh', t, extra)
    ensures IsDone(s, t, b, m) && Uncrossed(s, sh, m.k) ==>
              Books(Receive(s, b, m), sh', Apply(t, m), None) && extra == Some(m)
  {
    hide Normal, Receive, HandleValue, Owns, Books, BooksHand, Uncrossed, InFlight, Splits, AfterSplit;
    sh', loc' := sh, loc;
    NormalLocals(s, sh, loc);
    if IsRequest(m) {
      ValueOk(s, sh, loc, b, m);
      if Owns(s.nodes[b], m.k) {
        OwnedBooks(s, sh, loc, b, m, t, extra);
      } else {
        RequestTarget(s, sh, loc, b, m);
        ForwardBooks(s, sh, t, extra, b, m, m);
      }
    } else if Splits(s, b, m) {
      sh' := AnsweredBooks(s, sh, loc, b, m, t, extra);
    } else {
      TokenPassOk(s, sh, loc, b, m);
      loc' := loc[m.src := OnLink(b, sh.nxt[b])];
      ForwardBooks(s, sh, t, extra, b, m, PassOn(b, s.nodes[b], m));
    }
  }

  lemma RequestTarget(s: Net, sh: Shape, loc: map<Id, Loc>, b: Id, m: Msg)
    requires Normal(s, sh, loc) && b in s.nodes && s.nodes[b].mode == Running && IsRequest(m) && !Owns(s.nodes[b], m.k)
    ensures Member(sh, b) && s.nodes[b].succ == Some(sh.nxt[b])
  {
    hide Normal;
    MemberFields(s, sh, loc, b);
  }

  lemma SplitIsSetting(s: Net, sh: Shape, sh': Shape, loc: map<Id, Loc>, b: Id, m: Msg)
    requires Normal(s, sh, loc) && InHand(s, sh, loc, m) && Splits(s, b, m) && s.nodes[b].lo < s.nodes[b].hi
    requires Member(sh, b) && IsInsertion(sh, sh', b, m.src) && AfterSplit(s, Receive(s, b, m), b, m.src, sh.nxt[b])
    ensures SplitSetting(s, Receive(s, b, m), sh, sh', b, m.src)
  {
  }
}
