/** Keeping books on entries: while any number of joins are in progress, every entry of the map that the
    handled requests make is stored at one node or is on its way in exactly one VAL_INSERT. */
module NetBooks {
  import opened Base
  import opened Hash
  import opened Ranges
  import opened StoreSpec
  import opened NodeSpec
  import opened Network
  import opened Ring
  import opened NetInv
  import opened NetSteps
  import opened NetJoin
  import opened NetData
  import opened NetMap
  import opened NetSum
  import opened NetLoad

  // ---- counting messages ----

  ghost function Counts(x: Msg): Weight {
    (b: Id, m: Msg) => if m == x then 1 else 0
  }

  /** How often message x is on the streams that members read. */
  ghost function InFlight(s: Net, sh: Shape, x: Msg): nat {
    Load(s, sh.order, Counts(x))
  }

  lemma {:induction false} SumPositive<T(!new)>(xs: seq<T>, g: T -> nat)
    ensures Sum(xs, g) > 0 <==> exists i :: 0 <= i < |xs| && g(xs[i]) > 0
  {
    if xs != [] {
      SumPositive(xs[1..], g);
      if i :| 0 <= i < |xs[1..]| && g(xs[1..][i]) > 0 {
        assert g(xs[i + 1]) > 0;
      }
      if i :| 0 <= i < |xs| && g(xs[i]) > 0 {
        assert i > 0 ==> g(xs[1..][i - 1]) > 0;
      }
    }
  }

  lemma OnLinkCounted(s: Net, x: Id, b: Id, m: Msg)
    ensures LinkLoad(s, x, b, Counts(m)) > 0 <==> m in Down(s, x, b)
  {
    var ch := Down(s, x, b);
    SumPositive(ch, ForReader(Counts(m), b));
    if m in ch {
      var i :| 0 <= i < |ch| && ch[i] == m;
      assert ForReader(Counts(m), b)(ch[i]) > 0;
    }
  }

  lemma AtReaderCounted(s: Net, b: Id, m: Msg)
    requires b in s.nodes
    ensures ReaderLoad(s, b, Counts(m)) > 0 <==> exists i :: 0 <= i < |Pipe(s, b)| && m in Down(s, Pipe(s, b)[i], b)
  {
    var p := Pipe(s, b);
    SumPositive(p, ForLink(s, b, Counts(m)));
    forall i | 0 <= i < |p| ensures ForLink(s, b, Counts(m))(p[i]) > 0 <==> m in Down(s, p[i], b) {
      OnLinkCounted(s, p[i], b, m);
    }
  }

  /** What is counted is what is on a stream. */
  lemma InFlightIff(s: Net, sh: Shape, loc: map<Id, Loc>, m: Msg)
    requires Normal(s, sh, loc)
    ensures InFlight(s, sh, m) > 0 <==> OnDown(s, m)
  {
    hide LocalOk, Tiles, Tokens;
    SumPositive(sh.order, ForNet(s, Counts(m)));
    if OnDown(s, m) {
      var x: Id, y: Id :| m in Down(s, x, y);
      assert Member(sh, y) && y in s.nodes && x in Pipe(s, y);
      AtReaderCounted(s, y, m);
      MemberInOrder(sh, y);
      var i :| 0 <= i < |sh.order| && sh.order[i] == y;
      assert ForNet(s, Counts(m))(sh.order[i]) > 0;
    }
    if i :| 0 <= i < |sh.order| && ForNet(s, Counts(m))(sh.order[i]) > 0 {
      AtReaderCounted(s, sh.order[i], m);
    }
  }

  // ---- the books ----

  ghost predicate KeyStored(s: Net, k: Ssn) {
    exists b :: b in s.nodes && k in s.nodes[b].store.vals
  }

  /** How often request x has to be on its way as a transfer: once for an entry that no node stores. */
  ghost function Due(s: Net, t: Table, x: Msg): nat {
    if x.Insert? && x.k in t && t[x.k] == x.v && !KeyStored(s, x.k) then 1 else 0
  }

  ghost function One(extra: Option<Msg>, x: Msg): nat {
    if extra == Some(x) then 1 else 0
  }

  ghost predicate StoredRight(s: Net, t: Table) {
    forall b, k {:trigger k in s.nodes[b].store.vals} :: b in s.nodes && k in s.nodes[b].store.vals ==>
      k in t && s.nodes[b].store.vals[k] == t[k]
  }

  /** What is stored is right, and what is in flight is what is due, and perhaps one client request. */
  ghost predicate Books(s: Net, sh: Shape, t: Table, extra: Option<Msg>) {
    && StoredRight(s, t)
    && forall x {:trigger InFlight(s, sh, x)} :: IsRequest(x) ==> InFlight(s, sh, x) == Due(s, t, x) + One(extra, x)
  }

  /** The same with message m taken from a stream, or from the bag, but not handled yet. */
  ghost predicate BooksHand(s: Net, sh: Shape, t: Table, extra: Option<Msg>, m: Msg) {
    && StoredRight(s, t)
    && forall x {:trigger InFlight(s, sh, x)} :: IsRequest(x) ==>
         InFlight(s, sh, x) + (if x == m then 1 else 0) == Due(s, t, x) + One(extra, x)
  }

  // ---- homes ----

  lemma HolderIsMember(s: Net, sh: Shape, b: Id, k: Ssn)
    requires Locals(s, sh) && b in s.nodes && k in s.nodes[b].store.vals
    ensures Member(sh, b) && b in sh.lo && b in sh.hi && InRange(HashOf(k), sh.lo[b], sh.hi[b])
    ensures InRing(s.nodes[b])
  {
    hide Tiles, PipeOk;
    assert !Member(sh, b) ==> Outsider(s, sh, b);
    if Member(sh, b) {
      assert LocalOk(s, sh, b);
    }
  }

  /** A key is stored at one node only. */
  lemma OneHome(s: Net, sh: Shape, a: Id, b: Id, k: Ssn)
    requires Locals(s, sh) && a in s.nodes && b in s.nodes
    requires k in s.nodes[a].store.vals && k in s.nodes[b].store.vals
    ensures a == b
  {
    hide Locals;
    HolderIsMember(s, sh, a, k);
    HolderIsMember(s, sh, b, k);
    LocalsLinked(s, sh);
    OwnersAgree(sh, HashOf(k), a, b);
  }

  /** If the owner of a key does not store it, nobody does. */
  lemma OwnerStores(s: Net, sh: Shape, loc: map<Id, Loc>, b: Id, k: Ssn)
    requires Normal(s, sh, loc) && b in s.nodes && InRing(s.nodes[b]) && Owns(s.nodes[b], k)
    ensures KeyStored(s, k) <==> k in s.nodes[b].store.vals
  {
    hide Normal, Locals, KeysWithin;
    MemberFields(s, sh, loc, b);
    if KeyStored(s, k) {
      var a :| a in s.nodes && k in s.nodes[a].store.vals;
      NormalLocals(s, sh, loc);
      HolderIsMember(s, sh, a, k);
      LocalsLinked(s, sh);
      OwnersAgree(sh, HashOf(k), a, b);
    }
  }

  lemma NormalLocals(s: Net, sh: Shape, loc: map<Id, Loc>)
    requires Normal(s, sh, loc)
    ensures Locals(s, sh)
  {
  }

  // ---- a request in hand ----

  /** A message goes on to the ring successor. */
  lemma ForwardBooks(s: Net, sh: Shape, t: Table, extra: Option<Msg>, b: Id, m: Msg, m': Msg)
    requires Locals(s, sh) && Member(sh, b) && b in s.nodes && s.nodes[b].succ == Some(sh.nxt[b])
    requires BooksHand(s, sh, t, extra, m) && (m' == m || (!IsRequest(m) && !IsRequest(m')))
    ensures Books(PushDown(s, b, sh.nxt[b], [m']), sh, t, extra)
  {
    hide Locals;
    var s' := PushDown(s, b, sh.nxt[b], [m']);
    assert s'.nodes == s.nodes && StoredRight(s', t);
    forall x {:trigger InFlight(s', sh, x)} | IsRequest(x)
      ensures InFlight(s', sh, x) == Due(s', t, x) + One(extra, x)
    {
      ForwardLoad(s, sh, b, m', Counts(x));
      assert InFlight(s, sh, x) + (if x == m then 1 else 0) == Due(s, t, x) + One(extra, x);
    }
  }

  /** Node b's table went through request m, and nothing else changed. */
  ghost predicate Applied(s: Net, s': Net, b: Id, m: Msg) {
    && b in s.nodes && s'.nodes.Keys == s.nodes.Keys && IsRequest(m)
    && (forall a {:trigger s'.nodes[a]} :: a in s.nodes && a != b ==> s'.nodes[a] == s.nodes[a])
    && s'.nodes[b].store.vals == Apply(s.nodes[b].store.vals, m)
  }

  lemma AppliedKeys(s: Net, s': Net, sh: Shape, loc: map<Id, Loc>, b: Id, m: Msg, k: Ssn)
    requires Normal(s, sh, loc) && b in s.nodes && Applied(s, s', b, m) && InRing(s.nodes[b]) && Owns(s.nodes[b], m.k)
    ensures KeyStored(s', k) <==> if k == m.k then k in s'.nodes[b].store.vals else KeyStored(s, k)
  {
    hide Normal, HashOf;
    OwnerStores(s, sh, loc, b, m.k);
    if KeyStored(s', k) {
      var a :| a in s'.nodes && k in s'.nodes[a].store.vals;
      assert k != m.k || a != b ==> k in s.nodes[a].store.vals;
      if k == m.k {
        AppliedElsewhere(s, s', sh, loc, a, b, m, k);
      }
    }
    if KeyStored(s, k) && k != m.k {
      var a :| a in s.nodes && k in s.nodes[a].store.vals;
      assert k in s'.nodes[a].store.vals;
    }
  }

  /** Only the owner can hold the key of the request. */
  lemma AppliedElsewhere(s: Net, s': Net, sh: Shape, loc: map<Id, Loc>, a: Id, b: Id, m: Msg, k: Ssn)
    requires Normal(s, sh, loc) && b in s.nodes && Applied(s, s', b, m) && InRing(s.nodes[b]) && Owns(s.nodes[b], m.k)
    requires a in s'.nodes && k in s'.nodes[a].store.vals && k == m.k
    ensures a == b
  {
    hide Normal, HashOf, Locals;
    if a != b {
      NormalLocals(s, sh, loc);
      OwnerStores(s, sh, loc, b, k);
      OneHome(s, sh, a, b, k);
    }
  }

  lemma AppliedRight(s: Net, s': Net, sh: Shape, loc: map<Id, Loc>, t: Table, b: Id, m: Msg)
    requires Normal(s, sh, loc) && b in s.nodes && Applied(s, s', b, m) && InRing(s.nodes[b]) && Owns(s.nodes[b], m.k)
    requires StoredRight(s, t)
    ensures StoredRight(s', Apply(t, m))
  {
    hide Normal, HashOf;
    var t' := Apply(t, m);
    forall a, k {:trigger k in s'.nodes[a].store.vals} | a in s'.nodes && k in s'.nodes[a].store.vals
      ensures k in t' && s'.nodes[a].store.vals[k] == t'[k]
    {
      if k == m.k {
        AppliedElsewhere(s, s', sh, loc, a, b, m, k);
      }
      assert (a == b && k == m.k && m.Insert?) || s.nodes[a].store.vals[k] == t[k];
    }
  }

  /** A transfer arrives. */
  lemma TransferBooks(s: Net, s': Net, sh: Shape, loc: map<Id, Loc>, t: Table, extra: Option<Msg>, b: Id, m: Msg)
    requires Normal(s, sh, loc) && b in s.nodes && Applied(s, s', b, m) && InRing(s.nodes[b]) && Owns(s.nodes[b], m.k)
    requires IsRequest(m) && BooksHand(s, sh, t, extra, m) && Due(s, t, m) == 1
    requires forall x {:trigger InFlight(s', sh, x)} :: InFlight(s', sh, x) == InFlight(s, sh, x)
    ensures Books(s', sh, t, extra)
  {
    hide Normal, HashOf, Applied, StoredRight, InFlight, KeyStored;
    assert t[m.k := m.v] == t;
    AppliedRight(s, s', sh, loc, t, b, m);
    StoresNow(s, s', b, m);
    forall x {:trigger InFlight(s', sh, x)} | IsRequest(x)
      ensures InFlight(s', sh, x) == Due(s', t, x) + One(extra, x)
    {
      AppliedKeys(s, s', sh, loc, b, m, x.k);
      assert InFlight(s, sh, x) + (if x == m then 1 else 0) == Due(s, t, x) + One(extra, x);
    }
  }

  lemma StoresNow(s: Net, s': Net, b: Id, m: Msg)
    requires Applied(s, s', b, m)
    ensures b in s'.nodes && (m.k in s'.nodes[b].store.vals <==>
                                m.Insert? || (m.Lookup? && m.k in s.nodes[b].store.vals))
  {
  }

  /** No transfer of the request's key is in flight. */
  ghost predicate Uncrossed(s: Net, sh: Shape, k: Ssn) {
    forall v :: InFlight(s, sh, Insert(k, v)) == 0
  }

  lemma NothingDue(s: Net, sh: Shape, t: Table, extra: Option<Msg>, m: Msg)
    requires IsRequest(m) && BooksHand(s, sh, t, extra, m) && Due(s, t, m) == 0 && Uncrossed(s, sh, m.k)
    ensures extra == Some(m) && (m.k in t ==> KeyStored(s, m.k))
    ensures forall x {:trigger Due(s, t, x)} :: IsRequest(x) && x.k == m.k ==> Due(s, t, x) == 0
  {
    assert InFlight(s, sh, m) + 1 == Due(s, t, m) + One(extra, m);
    if m.k in t {
      var x := Insert(m.k, t[m.k]);
      assert InFlight(s, sh, x) + (if x == m then 1 else 0) == Due(s, t, x) + One(extra, x);
    }
  }

  /** A client request is done with. */
  lemma DoneBooks(s: Net, s': Net, sh: Shape, loc: map<Id, Loc>, t: Table, extra: Option<Msg>, b: Id, m: Msg)
    requires Normal(s, sh, loc) && b in s.nodes && Applied(s, s', b, m) && InRing(s.nodes[b]) && Owns(s.nodes[b], m.k)
    requires IsRequest(m) && BooksHand(s, sh, t, extra, m) && Due(s, t, m) == 0 && Uncrossed(s, sh, m.k)
    requires forall x {:trigger InFlight(s', sh, x)} :: InFlight(s', sh, x) == InFlight(s, sh, x)
    ensures Books(s', sh, Apply(t, m), None)
  {
    hide Normal, HashOf, StoredRight, InFlight, KeyStored, Applied;
    var t' := Apply(t, m);
    NothingDue(s, sh, t, extra, m);
    AppliedRight(s, s', sh, loc, t, b, m);
    OwnerStores(s, sh, loc, b, m.k);
    StoresNow(s, s', b, m);
    forall x {:trigger InFlight(s', sh, x)} | IsRequest(x)
      ensures InFlight(s', sh, x) == Due(s', t', x) + One(None, x)
    {
      AppliedKeys(s, s', sh, loc, b, m, x.k);
      assert InFlight(s, sh, x) + (if x == m then 1 else 0) == Due(s, t, x) + One(extra, x);
      if x.k == m.k {
        assert Due(s, t, x) == 0;
      }
    }
  }

  // ---- a split ----

  lemma {:induction false} InsertsOnce(keys: seq<Ssn>, vals: map<Ssn, Value>, x: Msg, j: Id)
    requires Distinct(keys) && IsRequest(x)
    ensures Sum(Inserts(keys, vals), ForReader(Counts(x), j))
            == if x.Insert? && x.k in keys && x.k in vals && vals[x.k] == x.v then 1 else 0
  {
    if keys != [] {
      var head := if keys[0] in vals then [Insert(keys[0], vals[keys[0]])] else [];
      assert keys == [keys[0]] + keys[1..] && keys[0] !in keys[1..];
      InsertsOnce(keys[1..], vals, x, j);
      SumConcat(head, Inserts(keys[1..], vals), ForReader(Counts(x), j));
      if head != [] {
        SumOne(head[0], ForReader(Counts(x), j));
      }
    }
  }

  /** Key k is among those that a split of node n ships. */
  ghost predicate Ships(n: Node, k: Ssn) {
    k in n.store.vals && !InRange(HashOf(k), n.lo, Mid(n.lo, n.hi))
  }

  lemma ShippedOnce(n: Node, o: Id, x: Msg, j: Id)
    requires StoreOk(n.store) && IsRequest(x)
    ensures Sum(Handover(n, o), ForReader(Counts(x), j))
            == if x.Insert? && Ships(n, x.k) && n.store.vals[x.k] == x.v then 1 else 0
  {
    var out := Outside(n.store.keys, n.lo, Mid(n.lo, n.hi));
    InsideMembers(n.store.keys, n.lo, Mid(n.lo, n.hi));
    InsertsOnce(out, n.store.vals, x, j);
    var answer := JoinResponse(o, AfterMid(n.lo, n.hi), n.hi);
    SumConcat([answer], Inserts(out, n.store.vals), ForReader(Counts(x), j));
    SumOne(answer, ForReader(Counts(x), j));
  }

  lemma SplitVals(s: Net, s': Net, sh: Shape, sh': Shape, w: Id, j: Id)
    requires SplitSetting(s, s', sh, sh', w, j)
    ensures w in s'.nodes && s'.nodes.Keys == s.nodes.Keys
    ensures forall a {:trigger s'.nodes[a]} :: a in s.nodes && a != w ==> s'.nodes[a] == s.nodes[a]
    ensures forall k :: k in s'.nodes[w].store.vals <==> k in s.nodes[w].store.vals && !Ships(s.nodes[w], k)
    ensures forall k :: k in s'.nodes[w].store.vals ==> s'.nodes[w].store.vals[k] == s.nodes[w].store.vals[k]
  {
    hide Locals, Handover, IsInsertion, HashOf;
  }

  lemma SplitKeys(s: Net, s': Net, sh: Shape, sh': Shape, w: Id, j: Id, k: Ssn)
    requires SplitSetting(s, s', sh, sh', w, j)
    ensures KeyStored(s', k) <==> KeyStored(s, k) && !Ships(s.nodes[w], k)
  {
    hide Locals, AfterSplit, IsInsertion, HashOf;
    SplitVals(s, s', sh, sh', w, j);
    if KeyStored(s', k) {
      var a :| a in s'.nodes && k in s'.nodes[a].store.vals;
      assert k in s.nodes[a].store.vals;
      if Ships(s.nodes[w], k) {
        OneHome(s, sh, a, w, k);
      }
    }
    if KeyStored(s, k) && !Ships(s.nodes[w], k) {
      var a :| a in s.nodes && k in s.nodes[a].store.vals;
      assert k in s'.nodes[a].store.vals;
    }
  }

  lemma SplitRight(s: Net, s': Net, sh: Shape, sh': Shape, w: Id, j: Id, t: Table)
    requires SplitSetting(s, s', sh, sh', w, j) && StoredRight(s, t)
    ensures StoredRight(s', t)
  {
    hide Locals, AfterSplit, IsInsertion, HashOf;
    SplitVals(s, s', sh, sh', w, j);
    forall a, k {:trigger k in s'.nodes[a].store.vals} | a in s'.nodes && k in s'.nodes[a].store.vals
      ensures k in t && s'.nodes[a].store.vals[k] == t[k]
    {
      assert k in s.nodes[a].store.vals;
    }
  }

  /** A split takes entries from the splitter's table and puts each on its way once. */
  lemma SplitBooks(s: Net, s': Net, sh: Shape, sh': Shape, w: Id, j: Id, t: Table, extra: Option<Msg>)
    requires SplitSetting(s, s', sh, sh', w, j) && StoreOk(s.nodes[w].store) && Books(s, sh, t, extra)
    ensures Books(s', sh', t, extra)
  {
    hide Locals, AfterSplit, IsInsertion, Handover, KeyStored;
    SplitRight(s, s', sh, sh', w, j, t);
    forall x {:trigger InFlight(s', sh', x)} | IsRequest(x)
      ensures InFlight(s', sh', x) == Due(s', t, x) + One(extra, x)
    {
      SplitLoad(s, s', sh, sh', w, j, Counts(x));
      ShippedOnce(s.nodes[w], sh.nxt[w], x, j);
      SplitKeys(s, s', sh, sh', w, j, x.k);
      assert InFlight(s, sh, x) == Due(s, t, x) + One(extra, x);
      ShipsStored(s, w, x.k);
    }
  }

  lemma ShipsStored(s: Net, w: Id, k: Ssn)
    requires w in s.nodes
    ensures Ships(s.nodes[w], k) ==> KeyStored(s, k)
  {
  }

  // ---- events that handle no message ----

  /** Tables and streams of requests are as before. */
  lemma SameBooks(s: Net, s': Net, sh: Shape, t: Table, extra: Option<Msg>)
    requires Books(s, sh, t, extra)
    requires forall a :: a in s.nodes ==> a in s'.nodes && s'.nodes[a].store == s.nodes[a].store
    requires forall a :: a in s'.nodes && a !in s.nodes ==> s'.nodes[a].store == EMPTY_STORE
    requires forall x {:trigger InFlight(s', sh, x)} :: IsRequest(x) ==> InFlight(s', sh, x) == InFlight(s, sh, x)
    ensures Books(s', sh, t, extra)
  {
    forall k ensures KeyStored(s', k) <==> KeyStored(s, k) {
      if KeyStored(s', k) {
        var a :| a in s'.nodes && k in s'.nodes[a].store.vals;
        assert k in s.nodes[a].store.vals;
      }
      if KeyStored(s, k) {
        var a :| a in s.nodes && k in s.nodes[a].store.vals;
        assert k in s'.nodes[a].store.vals;
      }
    }
    forall a, k {:trigger k in s'.nodes[a].store.vals} | a in s'.nodes && k in s'.nodes[a].store.vals
      ensures k in t && s'.nodes[a].store.vals[k] == t[k]
    {
      assert k in s.nodes[a].store.vals;
    }
    forall x {:trigger InFlight(s', sh, x)} | IsRequest(x)
      ensures InFlight(s', sh, x) == Due(s', t, x) + One(extra, x)
    {
      assert InFlight(s, sh, x) == Due(s, t, x) + One(extra, x);
    }
  }
}
