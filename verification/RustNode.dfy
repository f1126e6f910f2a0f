/** resources/TestNode/src/bin/node.rs, the second implementation of the state machine: its states for
    joins and range offers and its transfer loop do, on the nodes of a ring, what the C handlers do. */
module RustNode {
  import opened Base
  import opened Hash
  import opened Ranges
  import opened StoreSpec
  import opened NodeSpec
  import opened Ring
  import opened CNode
  import opened Storage

  // ---- merging ranges: q15 against update_range ----

  /** q15, as it decides: the range grows at its end only if the offer starts right behind it. */
  function MergeRange(lo: byte, hi: byte, newLo: byte, newHi: byte): (byte, byte, Side) {
    if hi != 255 && newLo == hi + 1 then (lo, newHi, ToSuccessor) else (newLo, hi, ToPredecessor)
  }

  /** For arbitrary ranges the two differ; they agree exactly if the offer starts below the node's own
      range, or right behind it. */
  lemma MergesAgreeIff(lo: byte, hi: byte, newLo: byte, newHi: byte)
    requires lo <= hi && newLo <= newHi
    ensures UpdateRange(lo, hi, newLo, newHi) == MergeRange(lo, hi, newLo, newHi) <==> newLo < lo || newLo == hi + 1
  {
  }

  /** On a tiled ring they agree for every offer a leaver can make: the same end grows, to the leaver's
      far end, and the answer goes to the leaver. */
  lemma MergesAgreeOnRing(sh: Shape, l: Id)
    requires ShapeOk(sh) && Member(sh, l) && sh.nxt[l] != l
    ensures var h := Heir(sh, l);
            && Member(sh, h) && InRange(sh.lo[h], 0, LAST) && InRange(sh.hi[h], 0, LAST)
            && InRange(sh.lo[l], 0, LAST) && InRange(sh.hi[l], 0, LAST)
            && UpdateRange(sh.lo[h], sh.hi[h], sh.lo[l], sh.hi[l]) == MergeRange(sh.lo[h], sh.hi[h], sh.lo[l], sh.hi[l])
            && UpdateRange(sh.lo[h], sh.hi[h], sh.lo[l], sh.hi[l])
               == (if sh.lo[l] == 0 then (sh.lo[l] as byte, sh.hi[h] as byte, ToPredecessor)
                   else (sh.lo[h] as byte, sh.hi[l] as byte, ToSuccessor))
  {
    var h := Heir(sh, l);
    AloneIff(sh, l);
    assert Member(sh, h);
    var i := IndexOf(sh, l);
    var k := IndexOf(sh, h);
    assert sh.lo[sh.order[i]] <= sh.hi[sh.order[i]] && sh.lo[sh.order[k]] <= sh.hi[sh.order[k]];
    NeighbourRanges(sh, l);
    NeighbourRanges(sh, h);
    assert sh.lo[l] != 0 ==> sh.nxt[h] == l;
  }

  // ---- entries ----

  datatype Entry = Entry(ssn: Ssn, value: Value)

  ghost predicate NoDuplicates(es: seq<Entry>) {
    forall i, j {:trigger es[i], es[j]} :: 0 <= i < j < |es| ==> es[i].ssn != es[j].ssn
  }

  function KeysOf(es: seq<Entry>): (r: seq<Ssn>)
    ensures |r| == |es| && forall i {:trigger r[i]} :: 0 <= i < |es| ==> r[i] == es[i].ssn
  {
    seq(|es|, i requires 0 <= i < |es| => es[i].ssn)
  }

  /** The entries with a hash in [lo, hi], and the others, in order. */
  function Within(es: seq<Entry>, lo: int, hi: int): seq<Entry> {
    if es == [] then []
    else Within(es[..|es| - 1], lo, hi) + if InRange(HashOf(es[|es| - 1].ssn), lo, hi) then [es[|es| - 1]] else []
  }

  function Beyond(es: seq<Entry>, lo: int, hi: int): seq<Entry> {
    if es == [] then []
    else Beyond(es[..|es| - 1], lo, hi) + if InRange(HashOf(es[|es| - 1].ssn), lo, hi) then [] else [es[|es| - 1]]
  }

  /** Every entry is in exactly one of the two. */
  lemma {:induction false} WithinMembers(es: seq<Entry>, lo: int, hi: int)
    ensures forall e :: e in Within(es, lo, hi) <==> e in es && lo <= HashOf(e.ssn) <= hi
    ensures forall e :: e in Beyond(es, lo, hi) <==> e in es && !(lo <= HashOf(e.ssn) <= hi)
    ensures |Within(es, lo, hi)| + |Beyond(es, lo, hi)| == |es|
  {
    if es != [] {
      assert es == es[..|es| - 1] + [es[|es| - 1]];
      WithinMembers(es[..|es| - 1], lo, hi);
    }
  }

  function InsertsOf(es: seq<Entry>): (r: seq<Msg>)
    ensures |r| == |es| && forall i {:trigger r[i]} :: 0 <= i < |es| ==> r[i] == Insert(es[i].ssn, es[i].value)
  {
    seq(|es|, i requires 0 <= i < |es| => Insert(es[i].ssn, es[i].value))
  }

  /** The store that a list of entries without duplicates stands for. */
  ghost predicate Represents(es: seq<Entry>, st: Store) {
    && NoDuplicates(es) && st.keys == KeysOf(es) && StoreOk(st)
    && forall i {:trigger es[i]} :: 0 <= i < |es| ==> es[i].ssn in st.vals && st.vals[es[i].ssn] == es[i].value
  }

  /** All entries hash into [lo, hi] and have their value in vals. */
  ghost predicate EntriesIn(es: seq<Entry>, vals: map<Ssn, Value>, lo: int, hi: int) {
    forall i {:trigger es[i]} :: 0 <= i < |es| ==>
      InRange(HashOf(es[i].ssn), lo, hi) && es[i].ssn in vals && vals[es[i].ssn] == es[i].value
  }

  /** Where both splits agree: the upper part starts right behind the middle, without wrapping. */
  lemma MiddleBelow(lo: byte, hi: byte)
    requires lo <= hi && lo < 255
    ensures lo <= Mid(lo, hi) <= hi && AfterMid(lo, hi) == Mid(lo, hi) + 1
  {
  }

  /** Filtering a range and retaining the rest splits the keys as the scans of the key array do. */
  lemma {:induction false} FilterKeys(es: seq<Entry>, lo: byte, hi: byte)
    requires lo <= hi && lo < 255 && forall i {:trigger es[i]} :: 0 <= i < |es| ==> InRange(HashOf(es[i].ssn), lo, hi)
    ensures var s := AfterMid(lo, hi); var m := Mid(lo, hi);
            && KeysOf(Within(es, s, hi)) == Outside(KeysOf(es), lo, m)
            && KeysOf(Beyond(es, s, hi)) == Inside(KeysOf(es), lo, m)
  {
    hide Mid, AfterMid, HashOf;
    MiddleBelow(lo, hi);
    if es == [] {
      assert KeysOf(es) == [];
    } else {
      hide Inside, Outside;
      var t, e := es[..|es| - 1], es[|es| - 1];
      var s, m := AfterMid(lo, hi), Mid(lo, hi);
      FilterKeys(t, lo, hi);
      assert KeysOf(es) == KeysOf(t) + [e.ssn];
      SplitSnoc(KeysOf(t), e.ssn, lo, m);
      if InRange(HashOf(e.ssn), s, hi) {
        assert KeysOf(Within(t, s, hi) + [e]) == KeysOf(Within(t, s, hi)) + [e.ssn];
        assert Beyond(es, s, hi) == Beyond(t, s, hi);
      } else {
        assert KeysOf(Beyond(t, s, hi) + [e]) == KeysOf(Beyond(t, s, hi)) + [e.ssn];
        assert Within(es, s, hi) == Within(t, s, hi);
      }
    }
  }

  /** What is filtered hashes into the filter's range, what is retained into the lower half. */
  lemma {:induction false} FilteredIn(es: seq<Entry>, vals: map<Ssn, Value>, lo: byte, hi: byte)
    requires lo <= hi && lo < 255 && EntriesIn(es, vals, lo, hi)
    ensures EntriesIn(Within(es, AfterMid(lo, hi), hi), vals, AfterMid(lo, hi), hi)
    ensures EntriesIn(Beyond(es, AfterMid(lo, hi), hi), vals, lo, Mid(lo, hi))
  {
    hide Mid, AfterMid, HashOf;
    MiddleBelow(lo, hi);
    if es != [] {
      FilteredIn(es[..|es| - 1], vals, lo, hi);
    }
  }

  lemma {:induction false} InsertsOfKeys(es: seq<Entry>, vals: map<Ssn, Value>, lo: int, hi: int)
    requires EntriesIn(es, vals, lo, hi)
    ensures InsertsOf(es) == Inserts(KeysOf(es), vals)
  {
    hide HashOf;
    if es == [] {
      assert InsertsOf(es) == [] && KeysOf(es) == [];
    } else {
      InsertsOfKeys(es[1..], vals, lo, hi);
      assert KeysOf(es)[1..] == KeysOf(es[1..]);
      assert InsertsOf(es) == [Insert(es[0].ssn, es[0].value)] + InsertsOf(es[1..]);
    }
  }

  /** Filtering the upper half and retaining the rest is scanning for what is outside the lower half:
      the same records in the same order, and the same entries left. */
  lemma FilterIsScan(es: seq<Entry>, vals: map<Ssn, Value>, lo: byte, hi: byte)
    requires lo <= hi && lo < 255 && EntriesIn(es, vals, lo, hi)
    ensures var s := AfterMid(lo, hi); var m := Mid(lo, hi);
            && InsertsOf(Within(es, s, hi)) == Inserts(Outside(KeysOf(es), lo, m), vals)
            && KeysOf(Beyond(es, s, hi)) == Inside(KeysOf(es), lo, m)
    ensures EntriesIn(Beyond(es, AfterMid(lo, hi), hi), vals, lo, Mid(lo, hi))
  {
    FilterKeys(es, lo, hi);
    FilteredIn(es, vals, lo, hi);
    InsertsOfKeys(Within(es, AfterMid(lo, hi), hi), vals, AfterMid(lo, hi), hi);
  }

  lemma DistinctFromKeys(es: seq<Entry>)
    requires Distinct(KeysOf(es))
    ensures NoDuplicates(es)
  {
    forall i, j {:trigger es[i], es[j]} | 0 <= i < j < |es| ensures es[i].ssn != es[j].ssn {
      assert KeysOf(es)[i] != KeysOf(es)[j];
    }
  }

  /** What is left of the list is what the C node keeps of its store. */
  lemma RetainIsKeep(es: seq<Entry>, st: Store, lo: byte, hi: byte)
    requires lo <= hi && lo < 255 && Represents(es, st) && EntriesIn(es, st.vals, lo, hi)
    ensures Represents(Beyond(es, AfterMid(lo, hi), hi), Keep(st, lo, Mid(lo, hi)))
  {
    FilterIsScan(es, st.vals, lo, hi);
    StoreOpsKeepAgreement(st, [1, 1, 1, 1, 1, 1, 1, 1, 1, 1, 1, 1], Value([], []), lo, Mid(lo, hi));
    InsideMembers(st.keys, lo, Mid(lo, hi));
    DistinctFromKeys(Beyond(es, AfterMid(lo, hi), hi));
  }

  lemma {:induction false} AllWithin(es: seq<Entry>)
    ensures Within(es, 0, 255) == es && Beyond(es, 0, 255) == []
  {
    hide HashOf;
    if es != [] {
      AllWithin(es[..|es| - 1]);
      assert es == es[..|es| - 1] + [es[|es| - 1]];
    }
  }

  lemma {:induction false} AllInside(keys: seq<Ssn>, lo: byte, hi: byte)
    requires forall k :: k in keys ==> InRange(HashOf(k), lo, hi)
    ensures Inside(keys, lo, hi) == keys && Outside(keys, lo, hi) == []
  {
    hide HashOf;
    if keys != [] {
      AllInside(keys[1..], lo, hi);
    }
  }

  lemma KeysInRange(es: seq<Entry>, vals: map<Ssn, Value>, lo: int, hi: int)
    requires EntriesIn(es, vals, lo, hi)
    ensures forall k :: k in KeysOf(es) ==> InRange(HashOf(k), lo, hi)
  {
    hide HashOf;
    forall k | k in KeysOf(es) ensures InRange(HashOf(k), lo, hi) {
      var i :| 0 <= i < |es| && KeysOf(es)[i] == k;
      assert es[i].ssn == k;
    }
  }

  lemma RepresentsKeys(es: seq<Entry>, st: Store)
    requires Represents(es, st)
    ensures st.keys == KeysOf(es) && StoreOk(st)
  {
  }

  /** A split of [255, 255] that wraps: everything is sent and nothing retained, where the C node keeps
      everything and sends nothing. */
  lemma WrappedSplit(es: seq<Entry>, st: Store)
    requires Represents(es, st) && EntriesIn(es, st.vals, 255, 255)
    ensures Within(es, 0, 255) == es && Beyond(es, 0, 255) == []
    ensures Represents([], Keep(st, 255, 255)) <==> es == []
    ensures Inserts(Outside(st.keys, 255, 255), st.vals) == []
  {
    hide Represents, StoreOk, Within, Beyond, Inside, Outside, Keep, EntriesIn, HashOf, KeysOf;
    RepresentsKeys(es, st);
    AllWithin(es);
    KeysInRange(es, st.vals, 255, 255);
    AllInside(st.keys, 255, 255);
    EmptyRepresents(st);
  }

  lemma EmptyRepresents(st: Store)
    requires StoreOk(st) && Inside(st.keys, 255, 255) == st.keys
    ensures Represents([], Keep(st, 255, 255)) <==> st.keys == []
  {
    hide HashOf, Inside;
    assert KeysOf([]) == [];
    if st.keys == [] {
      assert Restrict(st.vals, 255, 255) == map[];
    }
  }

  // ---- looking for a key ----

  /** What a search from the front finds for key k. */
  function FirstValue(es: seq<Entry>, k: Ssn): Option<Value> {
    if es == [] then None else if es[0].ssn == k then Some(es[0].value) else FirstValue(es[1..], k)
  }

  lemma {:induction false} FirstOfPushed(es: seq<Entry>, e: Entry, k: Ssn)
    ensures FirstValue(es + [e], k) ==
            if FirstValue(es, k).Some? then FirstValue(es, k) else if e.ssn == k then Some(e.value) else None
  {
    if es == [] {
      assert es + [e] == [e] && [e][1..] == [];
    } else {
      assert (es + [e])[1..] == es[1..] + [e];
      FirstOfPushed(es[1..], e, k);
    }
  }

  /** The search goes through the list as a loop does. */
  lemma {:induction false} FirstAfter(es: seq<Entry>, k: Ssn, i: nat)
    requires i <= |es| && forall j :: 0 <= j < i ==> es[j].ssn != k
    ensures FirstValue(es, k) == FirstValue(es[i..], k)
  {
    if i > 0 {
      FirstAfter(es[1..], k, i - 1);
      assert es[1..][i - 1..] == es[i..];
    } else {
      assert es[0..] == es;
    }
  }

  /** In a list that stands for a store the search finds what the store has. */
  lemma {:induction false} FirstIsStored(es: seq<Entry>, k: Ssn)
    requires NoDuplicates(es)
    ensures FirstValue(es, k).Some? <==> k in KeysOf(es)
    ensures forall i :: 0 <= i < |es| && es[i].ssn == k ==> FirstValue(es, k) == Some(es[i].value)
  {
    if es != [] {
      assert NoDuplicates(es[1..]) by {
        forall i, j {:trigger es[1..][i], es[1..][j]} | 0 <= i < j < |es[1..]|
          ensures es[1..][i].ssn != es[1..][j].ssn
        {
          assert es[i + 1].ssn != es[j + 1].ssn;
        }
      }
      FirstIsStored(es[1..], k);
      assert KeysOf(es) == [es[0].ssn] + KeysOf(es[1..]);
      forall i | 0 <= i < |es| && es[i].ssn == k ensures FirstValue(es, k) == Some(es[i].value) {
        assert i > 0 ==> es[1..][i - 1] == es[i];
      }
    }
  }

  lemma LookupFinds(es: seq<Entry>, st: Store, k: Ssn)
    requires Represents(es, st)
    ensures FirstValue(es, k) == if k in st.vals then Some(st.vals[k]) else None
  {
    FirstIsStored(es, k);
    if k in st.vals {
      var i :| 0 <= i < |es| && KeysOf(es)[i] == k;
      assert es[i].ssn == k;
    }
  }

  /** retain(|x| x.ssn != k). */
  function Others(es: seq<Entry>, k: Ssn): seq<Entry> {
    if es == [] then [] else (if es[0].ssn == k then [] else [es[0]]) + Others(es[1..], k)
  }

  lemma OthersSplit(es: seq<Entry>, k: Ssn)
    ensures Others(es, k) == if es == [] then [] else (if es[0].ssn == k then [] else [es[0]]) + Others(es[1..], k)
  {
  }

  lemma {:induction false} OthersPushed(es: seq<Entry>, e: Entry, k: Ssn)
    ensures Others(es + [e], k) == Others(es, k) + if e.ssn == k then [] else [e]
  {
    hide Others;
    OthersSplit(es + [e], k);
    if es == [] {
      OthersSplit(es, k);
      assert es + [e] == [e] && [e][1..] == [];
    } else {
      assert (es + [e])[0] == es[0] && (es + [e])[1..] == es[1..] + [e];
      OthersPushed(es[1..], e, k);
      OthersSplit(es, k);
    }
  }

  /** Every copy of the key goes, and nothing else: the search finds k no more, and any other key as before. */
  lemma {:induction false} OthersFirst(es: seq<Entry>, k: Ssn, x: Ssn)
    ensures FirstValue(Others(es, k), x) == if x == k then None else FirstValue(es, x)
  {
    if es != [] {
      OthersFirst(es[1..], k, x);
      if es[0].ssn != k {
        assert Others(es, k)[0] == es[0] && Others(es, k)[1..] == Others(es[1..], k);
      } else {
        assert Others(es, k) == Others(es[1..], k);
      }
    }
  }

  lemma {:induction false} OthersKeys(es: seq<Entry>, k: Ssn)
    requires Distinct(KeysOf(es))
    ensures KeysOf(Others(es, k)) == Without(KeysOf(es), k)
  {
    if es == [] {
      assert KeysOf(es) == [] && KeysOf(Others(es, k)) == [];
    } else {
      KeysOfTail(es);
      OthersKeys(es[1..], k);
      var rest := Others(es[1..], k);
      if es[0].ssn == k {
        assert Others(es, k) == rest;
        WithoutAbsent(KeysOf(es[1..]), k);
      } else {
        assert KeysOf([es[0]] + rest) == [es[0].ssn] + KeysOf(rest);
      }
    }
  }

  lemma KeysOfTail(es: seq<Entry>)
    requires es != [] && Distinct(KeysOf(es))
    ensures KeysOf(es) == [es[0].ssn] + KeysOf(es[1..]) && KeysOf(es)[1..] == KeysOf(es[1..])
    ensures Distinct(KeysOf(es[1..])) && es[0].ssn !in KeysOf(es[1..])
  {
    var ks := KeysOf(es);
    assert ks == [es[0].ssn] + KeysOf(es[1..]);
    forall i, j {:trigger KeysOf(es[1..])[i], KeysOf(es[1..])[j]} | 0 <= i < j < |es| - 1
      ensures KeysOf(es[1..])[i] != KeysOf(es[1..])[j]
    {
      assert ks[i + 1] != ks[j + 1];
    }
    forall i | 0 <= i < |es| - 1 ensures KeysOf(es[1..])[i] != es[0].ssn {
      assert ks[0] != ks[i + 1];
    }
  }

  lemma {:induction false} WithoutAbsent(keys: seq<Ssn>, k: Ssn)
    requires k !in keys
    ensures Without(keys, k) == keys
  {
    if keys != [] {
      WithoutAbsent(keys[1..], k);
    }
  }

  lemma {:induction false} OthersIn(es: seq<Entry>, k: Ssn)
    ensures forall e :: e in Others(es, k) <==> e in es && e.ssn != k
  {
    if es != [] {
      OthersIn(es[1..], k);
      assert es == [es[0]] + es[1..];
    }
  }

  /** Removing represents deleting. */
  lemma OthersRepresent(es: seq<Entry>, st: Store, k: Ssn)
    requires Represents(es, st)
    ensures Represents(Others(es, k), Delete(st, k))
  {
    OthersKeys(es, k);
    OthersIn(es, k);
    StoreOpsKeepAgreement(st, k, Value([], []), 0, 0);
    var rest := Others(es, k);
    if k !in st.vals {
      WithoutAbsent(st.keys, k);
    }
    DistinctFromKeys(rest);
    forall i {:trigger rest[i]} | 0 <= i < |rest|
      ensures rest[i].ssn in Delete(st, k).vals && Delete(st, k).vals[rest[i].ssn] == rest[i].value
    {
      assert rest[i] in rest;
      var j :| 0 <= j < |es| && es[j] == rest[i];
    }
  }

  /** A pushed entry represents a put exactly for a new key. */
  lemma PushedIff(es: seq<Entry>, st: Store, k: Ssn, v: Value)
    requires Represents(es, st)
    ensures Represents(es + [Entry(k, v)], Put(st, k, v)) <==> k !in st.vals
  {
    hide Distinct, Hash8;
    var es' := es + [Entry(k, v)];
    StoreOpsKeepAgreement(st, k, v, 0, 0);
    if k in st.vals {
      assert k in st.keys;
      var i :| 0 <= i < |es| && KeysOf(es)[i] == k;
      assert es'[i].ssn == es'[|es|].ssn;
    } else {
      assert KeysOf(es') == KeysOf(es) + [k];
      DistinctFromKeys(es');
    }
  }

  /** "000000000000" */
  const ZEROS: Ssn := [48, 48, 48, 48, 48, 48, 48, 48, 48, 48, 48, 48]

  lemma SilentEffects(n: NodeSpec.Node)
    ensures Effects(n, SILENT) == []
  {
  }

  lemma AnswerEffects(n: NodeSpec.Node)
    ensures Effects(n, SILENT) == [] && forall r :: Effects(n, SILENT.(reply := Some(r))) == [Answer(r)]
  {
  }

  // ---- the node ----

  class Node {
    const me: Id
    var rangeLo: byte                 // hash_range.0
    var rangeHi: byte                 // hash_range.1
    var values: seq<Entry>
    var successor: Option<Id>
    var successorListen: Id
    var predecessor: Option<Id>
    var mode: Mode
    var log: seq<Effect>

    constructor (me: Id)
      ensures this.me == me && rangeLo == 0 && rangeHi == 255 && values == []
      ensures successor == predecessor == None && log == []
      ensures mode == Running
    {
      this.me := me;
      rangeLo, rangeHi, values := 0, 255, [];
      successor, successorListen, predecessor, mode, log := None, 0, None, Running, [];
    }

    /** The node of the network model whose store the entries stand for. */
    ghost function View(st: Store): NodeSpec.Node
      reads this
    {
      NodeSpec.Node(mode, rangeLo, rangeHi, st, successor, successorListen, predecessor)
    }

    /** A node of a ring: a non-empty range, no duplicate keys, every key in range, both neighbours or
        none, and connected to the address it has stored. */
    ghost predicate OnRing(st: Store)
      reads this
    {
      && rangeLo <= rangeHi && Represents(values, st) && EntriesIn(values, st.vals, rangeLo, rangeHi)
      && (successor == None <==> predecessor == None)
      && (successor.Some? ==> successor.value == successorListen)
    }

    /** split_range: in u8 arithmetic, maxp + 1 overflows exactly for the range [255, 255]. A build with
        overflow checks then panics, any other wraps to 0; without an overflow the halves are the C node's. */
    method SplitRange(overflowChecks: bool) returns (panicked: bool, mins: byte, maxs: byte)
      requires rangeLo <= rangeHi
      modifies this`rangeHi
      ensures panicked <==> overflowChecks && old(rangeLo) == 255
      ensures !panicked ==> rangeHi == Mid(old(rangeLo), old(rangeHi))
      ensures !panicked ==> mins == AfterMid(old(rangeLo), old(rangeHi)) && maxs == old(rangeHi)
    {
      var maxp: byte := (rangeHi - rangeLo) / 2 + rangeLo;
      if maxp == 255 && overflowChecks {
        return true, 0, 0;
      }
      panicked, mins, maxs := false, (maxp + 1) % 256, rangeHi;
      rangeHi := maxp;
    }

    /** transfer: sends the entries with a hash in the range, in order, and retains the others. */
    method Transfer(rangeStart: byte, rangeEnd: byte) returns (sent: seq<Msg>)
      modifies this`values
      ensures sent == InsertsOf(Within(old(values), rangeStart, rangeEnd))
      ensures values == Beyond(old(values), rangeStart, rangeEnd)
    {
      sent := [];
      for i := 0 to |values|
        invariant values == old(values) && sent == InsertsOf(Within(values[..i], rangeStart, rangeEnd))
      {
        var e := values[i];
        assert values[..i + 1][..i] == values[..i];
        var hash := HashSsnOfKey(e.ssn);
        if hash >= rangeStart && hash <= rangeEnd {
          assert InsertsOf(Within(values[..i], rangeStart, rangeEnd) + [e])
              == InsertsOf(Within(values[..i], rangeStart, rangeEnd)) + [Insert(e.ssn, e.value)];
          sent := sent + [Insert(e.ssn, e.value)];
        }
      }
      assert values[..|values|] == values;
      var kept: seq<Entry> := [];
      for i := 0 to |values|
        invariant values == old(values) && kept == Beyond(values[..i], rangeStart, rangeEnd)
      {
        assert values[..i + 1][..i] == values[..i];
        var hash := HashSsnOfKey(values[i].ssn);
        if hash < rangeStart || hash > rangeEnd {
          kept := kept + [values[i]];
        }
      }
      values := kept;
    }

    method ConnectToSuccessor(addr: Id)
      modifies this`successor, this`successorListen, this`log
      ensures successor == Some(addr) && successorListen == addr && log == old(log) + [Connect(addr)]
    {
      successorListen := addr;
      successor := Some(addr);
      log := log + [Connect(addr)];
    }

    /** The common end of q5 and q13: split, answer, transfer. Store and writes are the C node's, except
        that after a wrapped split a node that stores anything gives all of it away. */
    method AnswerJoin(overflowChecks: bool, nextAddress: Id, ghost st: Store) returns (panicked: bool)
      requires rangeLo <= rangeHi && Represents(values, st) && EntriesIn(values, st.vals, rangeLo, rangeHi)
      modifies this`rangeHi, this`values, this`log
      ensures panicked <==> overflowChecks && old(rangeLo) == 255
      ensures !panicked ==>
                && rangeHi == Mid(old(rangeLo), old(rangeHi))
                && (Represents(values, Keep(st, rangeLo, rangeHi)) <==> old(rangeLo) < 255 || old(values) == [])
      ensures !panicked && (old(rangeLo) < 255 || old(values) == []) ==>
                log == old(log) + ToSuccs(Handover(old(View(st)), nextAddress))
      ensures !panicked && old(rangeLo) == 255 ==>
                values == [] && log == old(log) + ToSuccs([JoinResponse(nextAddress, 0, 255)] + InsertsOf(old(values)))
    {
      hide Inserts, Outside, Inside, Within, Beyond, Mid, AfterMid, Keep, ToSuccs;
      ghost var lo, hi, was := rangeLo, rangeHi, values;
      var mins, maxs;
      panicked, mins, maxs := SplitRange(overflowChecks);
      if panicked {
        return;
      }
      if lo < 255 {
        FilterIsScan(was, st.vals, lo, hi);
        RetainIsKeep(was, st, lo, hi);
      } else {
        WrapIff(lo, hi);
        WrappedSplit(was, st);
      }
      log := log + ToSuccs([JoinResponse(nextAddress, mins, maxs)]);
      var sent := Transfer(mins, maxs);
      log := log + ToSuccs(sent);
      ToSuccsConcat([JoinResponse(nextAddress, mins, maxs)], sent);
      assert old(log) + ToSuccs([JoinResponse(nextAddress, mins, maxs)]) + ToSuccs(sent)
          == old(log) + (ToSuccs([JoinResponse(nextAddress, mins, maxs)]) + ToSuccs(sent));
    }

    /** Node and writes are those of the handler function. */
    twostate predicate Agrees(r: (NodeSpec.Node, Out))
      reads this
    {
      View(r.0.store) == r.0 && Represents(values, r.0.store) && log == old(log) + Effects(r.0, r.1)
    }

    /** q12, then q5, q13 or q14, on a node of a ring. With overflow checks the node panics exactly if it
        has to split the range [255, 255]. Without, it does the same as handle_net_join exactly if it does
        not have to split that range, or stores nothing. */
    method HandleNetJoin(overflowChecks: bool, src: Id, maxSpan: byte, maxId: Id, ghost st: Store)
      returns (panicked: bool)
      requires OnRing(st)
      modifies this
      ensures panicked <==> overflowChecks && old(rangeLo) == 255 && (old(successor) == None || maxId == me)
      ensures !panicked ==>
                (Agrees(HandleJoin(me, old(View(st)), src, maxSpan, maxId))
                 <==> !(old(rangeLo) == 255 && (old(successor) == None || maxId == me)) || old(values) == [])
    {
      hide Inserts, Outside, Inside, Keep, Mid, AfterMid, ToSuccs, Effects, Represents;
      ghost var n := View(st);
      panicked := false;
      if successor == None {
        // q5
        ConnectToSuccessor(src);
        panicked := AnswerJoin(overflowChecks, me, st);
        if !panicked {
          mode := AwaitPred;
          NoEffects();
          SplitEffects(old(log), View(KeepLower(n).store), src, [], Handover(n, me));
          assert old(log) + [] == old(log);
        }
      } else if maxId == me {
        // q13
        log := log + [ToSucc(Close)];
        var successorAddr := successor.value;
        ConnectToSuccessor(src);
        panicked := AnswerJoin(overflowChecks, successorAddr, st);
        if !panicked {
          OneMessage(n, Close);
          SplitEffects(old(log), View(KeepLower(n).store), src, [Close], Handover(n, successorAddr));
        }
      } else {
        // q14
        var m := Join(src, maxSpan, maxId);
        if rangeHi - rangeLo > maxSpan {
          m := Join(src, rangeHi - rangeLo, me);
        }
        OneMessage(n, m);
        log := log + [ToSucc(m)];
      }
    }

    /** q15: the same as handle_net_new_range exactly for offers that start below the node's own range,
        or right behind it; a leaver of the ring makes no others. */
    method HandleNewRange(newStart: byte, newEnd: byte, ghost st: Store)
      requires OnRing(st) && successor.Some? && newStart <= newEnd
      modifies this`rangeLo, this`rangeHi, this`log
      ensures (rangeLo, rangeHi, if log == old(log) + [ToSucc(NewRangeResponse)] then ToSuccessor else ToPredecessor)
              == MergeRange(old(rangeLo), old(rangeHi), newStart, newEnd)
      ensures log == old(log) + [ToSucc(NewRangeResponse)] || log == old(log) + [ToPred(NewRangeResponse)]
      ensures var r := NodeSpec.HandleNewRange(old(View(st)), newStart, newEnd);
              (View(st) == r.0 && log == old(log) + Effects(r.0, r.1))
              <==> newStart < old(rangeLo) || newStart == old(rangeHi) + 1
    {
      ghost var n := View(st);
      OneMessage(NodeSpec.HandleNewRange(n, newStart, newEnd).0, NewRangeResponse);
      NoEffects();
      if rangeHi != 255 && newStart == rangeHi + 1 {
        rangeHi := newEnd;
        log := log + [ToSucc(NewRangeResponse)];
        assert log[|old(log)|] == ToSucc(NewRangeResponse);
      } else {
        rangeLo := newStart;
        log := log + [ToPred(NewRangeResponse)];
        assert log[|old(log)|] == ToPred(NewRangeResponse);
        assert (old(log) + [ToSucc(NewRangeResponse)])[|old(log)|] == ToSucc(NewRangeResponse);
        assert (old(log) + [ExitWithError])[|old(log)|] == ExitWithError;
      }
    }

    /** in_my_range. */
    method InMyRange(k: Ssn) returns (inRange: bool)
      ensures inRange <==> InRange(HashOf(k), rangeLo, rangeHi)
      ensures inRange <==> rangeLo <= Polynomial(k) % 256 <= rangeHi
    {
      var ssnHash := HashSsnOfKey(k);
      return rangeLo <= ssnHash && ssnHash <= rangeHi;
    }

    /** The push of handle_val_insert, without looking for the key. Nothing that was there is lost: the search
        finds for every key what it found before, and the new value if it found none. So the list stands for
        the C node's store exactly for keys that are not there yet. */
    method InsertInRange(k: Ssn, v: Value, ghost st: Store)
      modifies this`values
      ensures old(values) <= values && |values| == |old(values)| + 1
      ensures forall x :: FirstValue(values, x) ==
                          if FirstValue(old(values), x).Some? then FirstValue(old(values), x)
                          else if x == k then Some(v) else None
      ensures old(Represents(values, st)) ==> (Represents(values, Put(st, k, v)) <==> k !in st.vals)
    {
      ghost var was := values;
      values := values + [Entry(k, v)];
      forall x ensures FirstValue(values, x) ==
                       if FirstValue(was, x).Some? then FirstValue(was, x) else if x == k then Some(v) else None
      {
        FirstOfPushed(was, Entry(k, v), x);
      }
      if Represents(was, st) {
        PushedIff(was, st, k, v);
      }
    }

    /** handle_val_insert: an entry in range is pushed, any other goes to the successor. Node and writes are
        the C node's exactly if the key is out of range or not there yet. */
    method HandleValInsert(k: Ssn, v: Value, ghost st: Store) returns (panicked: bool)
      requires Represents(values, st)
      modifies this`values, this`log
      ensures panicked <==> !InRange(HashOf(k), rangeLo, rangeHi) && successor == None
      ensures !panicked ==>
                (Agrees(HandleValue(old(View(st)), Insert(k, v)))
                 <==> !InRange(HashOf(k), rangeLo, rangeHi) || k !in st.vals)
    {
      hide Represents, NoDuplicates, FirstValue, Put, HashOf;
      panicked := false;
      var inRange := InMyRange(k);
      if inRange {
        InsertInRange(k, v, st);
        SilentEffects(old(View(st)));
      } else if successor == None {
        panicked := true;
      } else {
        OneMessage(old(View(st)), Insert(k, v));
        log := log + [ToSucc(Insert(k, v))];
      }
    }

    /** handle_val_lookup: the first entry with the key, or an empty record with a key of zeros. Node and writes
        are the C node's exactly if the key is out of range or there. */
    method HandleValLookup(k: Ssn, client: Id, ghost st: Store) returns (panicked: bool)
      requires Represents(values, st)
      modifies this`log
      ensures panicked <==> !InRange(HashOf(k), rangeLo, rangeHi) && successor == None
      ensures InRange(HashOf(k), rangeLo, rangeHi) ==>
                log == old(log) + [Answer(if k in st.vals then Reply(client, k, st.vals[k])
                                          else Reply(client, ZEROS, Value([], [])))]
      ensures forall i :: 0 <= i < 12 ==> ZEROS[i] == '0' as int
      ensures !panicked ==>
                (Agrees(HandleValue(old(View(st)), Lookup(k, client)))
                 <==> !InRange(HashOf(k), rangeLo, rangeHi) || k in st.vals)
    {
      hide Represents, NoDuplicates, HashOf;
      panicked := false;
      var inRange := InMyRange(k);
      if inRange {
        LookupFinds(values, st, k);
        var found := false;
        for i := 0 to |values|
          invariant !found && log == old(log) && forall j :: 0 <= j < i ==> values[j].ssn != k
        {
          FirstAfter(values, k, i);
          assert values[i..][0] == values[i];
          if values[i].ssn == k {
            found := true;
            log := log + [Answer(Reply(client, values[i].ssn, values[i].value))];
            break;
          }
        }
        if !found {
          FirstAfter(values, k, |values|);
          log := log + [Answer(Reply(client, ZEROS, Value([], [])))];
        }
        AnswerEffects(old(View(st)));
      } else if successor == None {
        panicked := true;
      } else {
        OneMessage(old(View(st)), Lookup(k, client));
        log := log + [ToSucc(Lookup(k, client))];
      }
    }

    /** handle_val_remove: every entry with the key goes. Node and writes are the C node's. */
    method HandleValRemove(k: Ssn, ghost st: Store) returns (panicked: bool)
      requires Represents(values, st)
      modifies this`values, this`log
      ensures panicked <==> !InRange(HashOf(k), rangeLo, rangeHi) && successor == None
      ensures !panicked ==> Agrees(HandleValue(old(View(st)), Remove(k)))
    {
      hide Represents, NoDuplicates, HashOf, Delete;
      panicked := false;
      var inRange := InMyRange(k);
      if inRange {
        OthersRepresent(values, st, k);
        SilentEffects(old(View(st)));
        Retain(k);
      } else if successor == None {
        panicked := true;
      } else {
        OneMessage(old(View(st)), Remove(k));
        log := log + [ToSucc(Remove(k))];
      }
    }

    /** retain, of what does not have key k. */
    method Retain(k: Ssn)
      modifies this`values
      ensures values == Others(old(values), k)
      ensures forall x :: FirstValue(values, x) == if x == k then None else FirstValue(old(values), x)
    {
      var kept: seq<Entry> := [];
      for i := 0 to |values|
        invariant values == old(values) && kept == Others(values[..i], k)
      {
        assert values[..i + 1] == values[..i] + [values[i]];
        OthersPushed(values[..i], values[i], k);
        if values[i].ssn != k {
          kept := kept + [values[i]];
        }
      }
      assert values[..|values|] == values;
      values := kept;
      forall x ensures FirstValue(values, x) == if x == k then None else FirstValue(old(values), x) {
        OthersFirst(old(values), k, x);
      }
    }
  }
}
