/** resources/Hashtable/hashtable.c: 256 buckets of singly linked nodes on the heap, proved to be a map. */
module HashTable {
  import opened Base
  import opened Hash

  const MAX_SIZE: nat := 256

  /** node_t. A node's key never changes. */
  class Cell {
    const key: Ssn
    var value: Value
    var next: Cell?

    constructor (key: Ssn, value: Value)
      ensures this.key == key && this.value == value && next == null
    {
      this.key := key;
      this.value := value;
      this.next := null;
    }
  }

  // ---- the counters, as functions of the chains ----

  /** The number of nodes in the first n chains. */
  ghost function Total(chains: seq<seq<Cell>>, n: nat): nat
    requires n <= |chains|
  {
    if n == 0 then 0 else Total(chains, n - 1) + |chains[n - 1]|
  }

  /** The number of non-empty chains among the first n. */
  ghost function Used(chains: seq<seq<Cell>>, n: nat): nat
    requires n <= |chains|
  {
    if n == 0 then 0 else Used(chains, n - 1) + (if chains[n - 1] == [] then 0 else 1)
  }

  lemma {:induction false} CountersUpdate(chains: seq<seq<Cell>>, h: nat, c: seq<Cell>, n: nat)
    requires h < |chains| && n <= |chains|
    ensures Total(chains[h := c], n) == Total(chains, n) + (if h < n then |c| - |chains[h]| else 0)
    ensures Used(chains[h := c], n) == Used(chains, n) +
              (if h < n then (if c == [] then 0 else 1) - (if chains[h] == [] then 0 else 1) else 0)
  {
    if n > 0 {
      CountersUpdate(chains, h, c, n - 1);
    }
  }

  lemma {:induction false} TotalCovers(chains: seq<seq<Cell>>, n: nat)
    requires n <= |chains|
    ensures forall h :: 0 <= h < n ==> |chains[h]| <= Total(chains, n)
    ensures (forall h :: 0 <= h < n ==> chains[h] == []) ==> Total(chains, n) == 0 && Used(chains, n) == 0
  {
    if n > 0 {
      TotalCovers(chains, n - 1);
    }
  }

  // ---- one bucket ----

  /** The chain from head: each node points to the next one, the last to none. */
  ghost predicate Linked(chain: seq<Cell>, head: Cell?)
    reads chain
  {
    && head == (if chain == [] then null else chain[0])
    && forall i {:trigger chain[i].next} :: 0 <= i < |chain| ==>
          chain[i].next == if i + 1 < |chain| then chain[i + 1] else null
  }

  ghost predicate HasKey(chain: seq<Cell>, k: Ssn) {
    exists i :: 0 <= i < |chain| && chain[i].key == k
  }

  ghost predicate DistinctKeys(chain: seq<Cell>) {
    forall i, j {:trigger chain[i], chain[j]} :: 0 <= i < j < |chain| ==> chain[i].key != chain[j].key
  }

  /** The nodes of bucket h have different keys, which hash to h, and hold exactly the entries of part. */
  ghost predicate Holds(chain: seq<Cell>, h: int, part: map<Ssn, Value>)
    reads chain
  {
    && DistinctKeys(chain)
    && (forall i {:trigger chain[i]} :: 0 <= i < |chain| ==>
          HashOf(chain[i].key) == h && chain[i].key in part && part[chain[i].key] == chain[i].value)
    && (forall k {:trigger HasKey(chain, k)} :: k in part ==> HasKey(chain, k))
  }

  ghost predicate BucketOk(chain: seq<Cell>, head: Cell?, h: int, part: map<Ssn, Value>)
    reads chain
  {
    Linked(chain, head) && Holds(chain, h, part)
  }

  lemma AppendedKeys(chain: seq<Cell>, n: Cell, k: Ssn)
    requires k == n.key || HasKey(chain, k)
    ensures HasKey(chain + [n], k)
  {
    var chain' := chain + [n];
    if k == n.key {
      assert chain'[|chain|].key == k;
    } else {
      var i :| 0 <= i < |chain| && chain[i].key == k;
      assert chain'[i].key == k;
    }
  }

  /** A chain without its i-th node. */
  ghost function Gone(chain: seq<Cell>, i: nat): (r: seq<Cell>)
    requires i < |chain|
    ensures |r| == |chain| - 1
    ensures forall j {:trigger r[j]} :: 0 <= j < |r| ==> r[j] == chain[if j < i then j else j + 1]
  {
    chain[..i] + chain[i + 1..]
  }

  lemma UnlinkedKeys(chain: seq<Cell>, chain': seq<Cell>, i: nat, k: Ssn)
    requires i < |chain| && |chain'| == |chain| - 1 && HasKey(chain, k) && k != chain[i].key
    requires forall j {:trigger chain'[j]} :: 0 <= j < |chain'| ==> chain'[j] == chain[if j < i then j else j + 1]
    ensures HasKey(chain', k)
  {
    var j :| 0 <= j < |chain| && chain[j].key == k;
    assert chain'[if j < i then j else j - 1].key == k;
  }

  // ---- what the table means ----

  /** The nodes of every bucket in order, what every bucket holds, all nodes there ever were, and the
      whole map. */
  datatype Model = Model(chains: seq<seq<Cell>>, parts: seq<map<Ssn, Value>>, cells: set<Cell>,
                         contents: map<Ssn, Value>)

  const EMPTY_MODEL: Model := Model(seq(MAX_SIZE, i => []), seq(MAX_SIZE, i => map[]), {}, map[])

  /** The map, cut up by bucket. */
  ghost predicate Agree(contents: map<Ssn, Value>, parts: seq<map<Ssn, Value>>) {
    && |parts| == MAX_SIZE
    && forall k :: (k in contents <==> k in parts[HashOf(k)]) && (k in contents ==> contents[k] == parts[HashOf(k)][k])
  }

  /** The model is in shape, length counts its nodes and numEntries its non-empty buckets. */
  ghost predicate Shape(m: Model, length: int, numEntries: int) {
    && |m.chains| == MAX_SIZE == |m.parts|
    && (forall h, i {:trigger m.chains[h][i]} :: 0 <= h < MAX_SIZE && 0 <= i < |m.chains[h]| ==>
          m.chains[h][i] in m.cells)
    && length == Total(m.chains, MAX_SIZE)
    && numEntries == Used(m.chains, MAX_SIZE)
    && Agree(m.contents, m.parts)
  }

  ghost function With(part: map<Ssn, Value>, k: Ssn, v: Value): map<Ssn, Value> {
    part[k := v]
  }

  ghost function WithNode(m: Model, n: Cell, v: Value): Model
    requires |m.chains| == |m.parts| == MAX_SIZE
  {
    var h: int := HashOf(n.key);
    Model(m.chains[h := m.chains[h] + [n]], m.parts[h := With(m.parts[h], n.key, v)], m.cells + {n},
          m.contents[n.key := v])
  }

  ghost function WithValue(m: Model, k: Ssn, v: Value): Model
    requires |m.parts| == MAX_SIZE
  {
    m.(parts := m.parts[HashOf(k) := With(m.parts[HashOf(k)], k, v)], contents := m.contents[k := v])
  }

  ghost function WithoutNode(m: Model, h: nat, i: nat): Model
    requires |m.chains| == |m.parts| == MAX_SIZE && h < MAX_SIZE && i < |m.chains[h]|
  {
    var chain := m.chains[h];
    var k := chain[i].key;
    Model(m.chains[h := Gone(chain, i)], m.parts[h := m.parts[h] - {k}], m.cells, m.contents - {k})
  }

  lemma WithNodeShape(m: Model, length: int, numEntries: int, n: Cell, v: Value)
    requires Shape(m, length, numEntries)
    ensures Shape(WithNode(m, n, v), length + 1, numEntries + if m.chains[HashOf(n.key)] == [] then 1 else 0)
  {
    var h: int := HashOf(n.key);
    CountersUpdate(m.chains, h, m.chains[h] + [n], MAX_SIZE);
  }

  lemma WithValueShape(m: Model, length: int, numEntries: int, k: Ssn, v: Value)
    requires Shape(m, length, numEntries)
    ensures Shape(WithValue(m, k, v), length, numEntries)
  {
  }

  lemma WithoutNodeShape(m: Model, length: int, numEntries: int, h: nat, i: nat)
    requires Shape(m, length, numEntries) && h < MAX_SIZE && i < |m.chains[h]| && HashOf(m.chains[h][i].key) == h
    ensures Shape(WithoutNode(m, h, i), length - 1, numEntries - if |m.chains[h]| == 1 then 1 else 0)
  {
    CountersUpdate(m.chains, h, Gone(m.chains[h], i), MAX_SIZE);
  }

  /** The i-th node of bucket h. */
  datatype Spot = Spot(h: nat, i: nat)

  /** struct ht. */
  class Table {
    const entries: array<Cell?>
    var numEntries: int
    var length: int
    ghost var m: Model

    /** Every chain is acyclic, free of duplicates and in its hash bucket, the nodes hold exactly the
        entries of the map, length counts the nodes and numEntries the non-empty buckets. */
    ghost predicate Valid()
      reads this, entries, m.cells
    {
      && entries.Length == MAX_SIZE
      && Shape(m, length, numEntries)
      && forall h {:trigger m.chains[h]} :: 0 <= h < MAX_SIZE ==> BucketOk(m.chains[h], entries[h], h, m.parts[h])
    }

    constructor ()
      ensures Valid() && fresh(entries) && m.cells == {} && m.contents == map[] && length == 0
      ensures entries.Length == 256 && numEntries == 0
    {
      entries := new Cell?[MAX_SIZE](i => null);
      numEntries := 0;
      length := 0;
      m := EMPTY_MODEL;
      new;
      TotalCovers(m.chains, MAX_SIZE);
    }

    method Lookup(k: Ssn) returns (r: Option<Value>)
      requires Valid()
      ensures r == if k in m.contents then Some(m.contents[k]) else None
    {
      var index: int := DigestOfKey(k);
      ghost var chain := m.chains[index];
      assert BucketOk(chain, entries[index], index, m.parts[index]);
      if entries[index] == null {
        assert !HasKey(chain, k);
        return None;
      }
      var entry := entries[index];
      if entry.key == k {
        return Some(entry.value);
      }
      ghost var i := 0;
      while entry != null
        invariant 0 <= i <= |chain|
        invariant entry == if i < |chain| then chain[i] else null
        invariant forall j :: 0 <= j < i ==> chain[j].key != k
        decreases |chain| - i
      {
        if entry.key == k {
          return Some(entry.value);
        }
        entry := entry.next;
        i := i + 1;
      }
      assert !HasKey(chain, k);
      return None;
    }

    /** Walks the chain of a bucket up to key k: entry is the node with key k, or null at the end;
        prev is the node before it. */
    method Walk(index: nat, k: Ssn) returns (entry: Cell?, prev: Cell?, ghost i: nat)
      requires Valid() && index < MAX_SIZE
      ensures i <= |m.chains[index]|
      ensures entry == if i < |m.chains[index]| then m.chains[index][i] else null
      ensures prev == if i > 0 then m.chains[index][i - 1] else null
      ensures entry != null ==> entry.key == k
      ensures entry == null ==> !HasKey(m.chains[index], k)
    {
      hide Holds, Total, Used;
      ghost var chain := m.chains[index];
      assert BucketOk(chain, entries[index], index, m.parts[index]);
      entry, prev, i := entries[index], null, 0;
      while entry != null && entry.key != k
        invariant 0 <= i <= |chain|
        invariant entry == if i < |chain| then chain[i] else null
        invariant prev == if i > 0 then chain[i - 1] else null
        invariant forall j :: 0 <= j < i ==> chain[j].key != k
        decreases |chain| - i
      {
        prev := entry;
        entry := entry.next;
        i := i + 1;
      }
    }

    // Each change of the heap touches one node, and one bucket's chain and map.

    twostate predicate OnlyChanged(new c: Cell)
      reads *
    {
      && entries.Length == MAX_SIZE == |m.chains| == |m.parts| == |old(m.chains)| == |old(m.parts)|
      && (forall x: Cell {:trigger x.next} {:trigger x.value} :: x in old(m.cells) && x != c ==>
            x.next == old(x.next) && x.value == old(x.value))
      && (forall h {:trigger m.chains[h]} :: 0 <= h < MAX_SIZE && h != HashOf(c.key) ==>
            m.chains[h] == old(m.chains)[h] && m.parts[h] == old(m.parts)[h] && entries[h] == old(entries[h]))
    }

    /** The other buckets are as they were. */
    twostate lemma OthersKept(new c: Cell)
      requires old(Valid()) && OnlyChanged(c)
      ensures forall h {:trigger m.chains[h]} :: 0 <= h < MAX_SIZE && h != HashOf(c.key) ==>
                BucketOk(m.chains[h], entries[h], h, m.parts[h])
    {
      forall h | 0 <= h < MAX_SIZE && h != HashOf(c.key) ensures BucketOk(m.chains[h], entries[h], h, m.parts[h]) {
        var chain := m.chains[h];
        assert old(BucketOk(m.chains[h], entries[h], h, m.parts[h]));
        assert forall i :: 0 <= i < |chain| ==> old(m.chains)[h][i] in old(m.cells);
        assert forall i {:trigger chain[i]} :: 0 <= i < |chain| ==> chain[i] != c;
      }
    }

    /** The node at a spot took another value. */
    twostate predicate Revalued(at: Spot)
      requires at.h < MAX_SIZE == |old(m.chains)|
      reads *
    {
      && entries.Length == |m.chains| == |m.parts| == |old(m.parts)| == MAX_SIZE && m.chains == old(m.chains)
      && at.i < |m.chains[at.h]|
      && var entry := m.chains[at.h][at.i];
         && OnlyChanged(entry) && entry.next == old(entry.next) && entries[at.h] == old(entries[at.h])
         && m.parts[at.h] == old(m.parts)[at.h][entry.key := entry.value]
    }

    twostate lemma ReplacedLinks(at: Spot)
      requires old(Valid()) && at.h < MAX_SIZE && Revalued(at)
      ensures Linked(m.chains[at.h], entries[at.h])
    {
      var chain := m.chains[at.h];
      assert old(Linked(m.chains[at.h], entries[at.h])) by {
        assert old(BucketOk(m.chains[at.h], entries[at.h], at.h, m.parts[at.h]));
      }
      forall j {:trigger chain[j]} | 0 <= j < |chain| ensures chain[j].next == old(chain[j].next) {
        assert old(m.chains)[at.h][j] in old(m.cells);
      }
    }

    twostate lemma ReplacedHolds(at: Spot)
      requires old(Valid()) && at.h < MAX_SIZE && Revalued(at)
      ensures Holds(m.chains[at.h], at.h, m.parts[at.h])
    {
      hide Linked, Total, Used, Agree;
      var chain, part := m.chains[at.h], m.parts[at.h];
      assert old(Holds(m.chains[at.h], at.h, m.parts[at.h])) by {
        assert old(BucketOk(m.chains[at.h], entries[at.h], at.h, m.parts[at.h]));
      }
      forall j {:trigger chain[j]} | 0 <= j < |chain| && j != at.i
        ensures chain[j].value == old(chain[j].value) && chain[j].key != chain[at.i].key
      {
        assert old(m.chains)[at.h][j] in old(m.cells);
      }
      forall k | k in part ensures HasKey(chain, k) {
        assert chain[at.i].key == k || HasKey(chain, k);
      }
    }

    method Replace(entry: Cell, ghost at: Spot, v: Value)
      requires Valid() && at.h < MAX_SIZE && at.i < |m.chains[at.h]| && m.chains[at.h][at.i] == entry
      modifies this, entry
      ensures Valid() && m == WithValue(old(m), entry.key, v) && length == old(length) && numEntries == old(numEntries)
    {
      hide Linked, Agree;
      assert BucketOk(m.chains[at.h], entries[at.h], at.h, m.parts[at.h]);
      WithValueShape(m, length, numEntries, entry.key, v);
      entry.value := v;
      m := WithValue(m, entry.key, v);
      ReplacedLinks(at);
      ReplacedHolds(at);
      OthersKept(entry);
    }

    /** A node joined the end of its bucket's chain. */
    twostate predicate PutAtEnd(new n: Cell)
      requires |old(m.chains)| == |old(m.parts)| == MAX_SIZE
      reads *
    {
      && entries.Length == |m.chains| == |m.parts| == MAX_SIZE && n !in old(m.cells) && n.next == null
      && var h: int := HashOf(n.key);
         var chain := old(m.chains)[h];
         && m.chains[h] == chain + [n] && n.key !in old(m.parts)[h] && m.parts[h] == old(m.parts)[h][n.key := n.value]
         && (if chain == [] then entries[h] == n && OnlyChanged(n)
             else
               var prev := chain[|chain| - 1];
               && entries[h] == old(entries[h]) && OnlyChanged(prev)
               && prev.next == n && prev.value == old(prev.value))
    }

    twostate lemma AppendedLinks(new n: Cell)
      requires old(Valid()) && PutAtEnd(n)
      ensures Linked(m.chains[HashOf(n.key)], entries[HashOf(n.key)])
    {
      hide Holds, Total, Used, Agree;
      var h: int := HashOf(n.key);
      var chain, chain' := old(m.chains)[h], m.chains[h];
      assert old(Linked(m.chains[h], entries[h])) && old(Holds(m.chains[h], h, m.parts[h])) by {
        assert old(BucketOk(m.chains[h], entries[h], h, m.parts[h]));
      }
      forall j {:trigger chain[j]} | 0 <= j < |chain|
        ensures chain'[j] == chain[j] && chain[j].next == if j + 1 < |chain| then old(chain[j].next) else n
      {
        assert old(m.chains)[h][j] in old(m.cells);
      }
    }

    twostate lemma AppendedHolds(new n: Cell)
      requires old(Valid()) && PutAtEnd(n)
      ensures Holds(m.chains[HashOf(n.key)], HashOf(n.key), m.parts[HashOf(n.key)])
    {
      hide Linked, Total, Used;
      var h: int := HashOf(n.key);
      var chain, chain' := old(m.chains)[h], m.chains[h];
      assert old(Holds(m.chains[h], h, m.parts[h])) by {
        assert old(BucketOk(m.chains[h], entries[h], h, m.parts[h]));
      }
      forall j {:trigger chain[j]} | 0 <= j < |chain|
        ensures chain'[j] == chain[j] && chain[j].value == old(chain[j].value) {
        assert old(m.chains)[h][j] in old(m.cells);
      }
      forall k | k in m.parts[h] ensures HasKey(chain', k) {
        assert k == n.key || HasKey(chain, k);
        AppendedKeys(chain, n, k);
      }
    }

    twostate lemma Appended(new n: Cell)
      requires old(Valid()) && PutAtEnd(n)
      ensures BucketOk(m.chains[HashOf(n.key)], entries[HashOf(n.key)], HashOf(n.key), m.parts[HashOf(n.key)])
    {
      hide Linked, Holds, Total, Used, Agree;
      AppendedLinks(n);
      AppendedHolds(n);
    }

    /** The first node of a bucket. */
    method PutFirst(n: Cell, index: nat)
      requires index == HashOf(n.key) && Valid() && n !in m.cells && n.next == null && n.key !in m.contents
      requires m.chains[HashOf(n.key)] == []
      modifies this, entries
      ensures Valid() && m == WithNode(old(m), n, n.value)
      ensures length == old(length) + 1 && numEntries == old(numEntries) + 1
    {
      WithNodeShape(m, length, numEntries, n, n.value);
      entries[index] := n;
      length := length + 1;
      numEntries := numEntries + 1;
      m := WithNode(m, n, n.value);
      Appended(n);
      OthersKept(n);
    }

    /** One more node of a bucket. */
    method PutLast(n: Cell, prev: Cell)
      requires Valid() && n !in m.cells && n.next == null && n.key !in m.contents && m.chains[HashOf(n.key)] != []
      requires var chain := m.chains[HashOf(n.key)]; prev == chain[|chain| - 1]
      modifies this, prev
      ensures Valid() && m == WithNode(old(m), n, n.value) && length == old(length) + 1 && numEntries == old(numEntries)
    {
      hide Linked, DistinctKeys, HasKey, Used;
      assert BucketOk(m.chains[HashOf(n.key)], entries[HashOf(n.key)], HashOf(n.key), m.parts[HashOf(n.key)]);
      prev.next := n;
      length := length + 1;
      m := WithNode(m, n, n.value);
      Appended(n);
      OthersKept(prev);
      WithNodeShape(old(m), old(length), old(numEntries), n, n.value);
    }

    method Insert(k: Ssn, v: Value)
      requires Valid()
      modifies this, entries, m.cells
      ensures Valid() && fresh(m.cells - old(m.cells))
      ensures m.contents == old(m.contents)[k := v]
      ensures length == old(length) + if k in old(m.contents) then 0 else 1
      ensures forall h {:trigger m.chains[h]} :: 0 <= h < MAX_SIZE && h != HashOf(k) ==> m.chains[h] == old(m.chains)[h]
      ensures k in old(m.contents) ==> m.chains == old(m.chains) && numEntries == old(numEntries)
      ensures k !in old(m.contents) ==>
                var chain, chain' := old(m.chains)[HashOf(k)], m.chains[HashOf(k)];
                && |chain'| == |chain| + 1 && chain <= chain' && chain'[|chain|].key == k
                && numEntries == old(numEntries) + if chain == [] then 1 else 0
    {
      hide Agree, BucketOk, Total, Used;
      var index: int := DigestOfKey(k);
      HeadIs(index);
      if entries[index] == null {
        Absent(k);
        var n := new Cell(k, v);
        PutFirst(n, index);
      } else {
        var entry, prev, i := Walk(index, k);
        if entry == null {
          Absent(k);
          var n := new Cell(k, v);
          PutLast(n, prev);
        } else {
          NodeAt(Spot(index, i));
          Replace(entry, Spot(index, i), v);
        }
      }
    }

    lemma NodeAt(at: Spot)
      requires Valid() && at.h < MAX_SIZE && at.i < |m.chains[at.h]|
      ensures var chain := m.chains[at.h];
              && HashOf(chain[at.i].key) == at.h && chain[at.i].key in m.contents && chain[at.i] in m.cells
              && entries[at.h] == chain[0]
              && chain[at.i].next == if at.i + 1 < |chain| then chain[at.i + 1] else null
    {
      assert BucketOk(m.chains[at.h], entries[at.h], at.h, m.parts[at.h]);
    }

    /** A node was taken out of its chain. */
    twostate predicate TakenOut(at: Spot)
      requires at.h < MAX_SIZE == |old(m.chains)|
      reads *
    {
      && entries.Length == |m.chains| == |m.parts| == |old(m.parts)| == MAX_SIZE && at.i < |old(m.chains)[at.h]|
      && var chain := old(m.chains)[at.h];
         && m.chains[at.h] == Gone(chain, at.i)
         && m.parts[at.h] == old(m.parts)[at.h] - {chain[at.i].key}
         && (if at.i == 0 then entries[at.h] == old(chain[0].next) && OnlyChanged(chain[0])
             else
               var prev := chain[at.i - 1];
               && entries[at.h] == old(entries[at.h]) && OnlyChanged(prev)
               && prev.next == old(chain[at.i].next) && prev.value == old(prev.value))
    }

    twostate lemma UnlinkedLinks(at: Spot)
      requires old(Valid()) && at.h < MAX_SIZE && TakenOut(at)
      ensures Linked(m.chains[at.h], entries[at.h])
    {
      var chain, chain' := old(m.chains)[at.h], m.chains[at.h];
      assert old(Linked(m.chains[at.h], entries[at.h])) && old(DistinctKeys(m.chains[at.h])) by {
        assert old(BucketOk(m.chains[at.h], entries[at.h], at.h, m.parts[at.h]));
      }
      forall j {:trigger chain[j]} | 0 <= j < |chain|
        ensures j != at.i ==> chain[j].next == old(if j + 1 == at.i then chain[at.i].next else chain[j].next)
      {
        assert old(m.chains)[at.h][j] in old(m.cells);
      }
      forall j {:trigger chain'[j].next} | 0 <= j < |chain'|
        ensures chain'[j].next == if j + 1 < |chain'| then chain'[j + 1] else null
      {
        assert chain'[j] == chain[if j < at.i then j else j + 1];
      }
    }

    twostate lemma UnlinkedHolds(at: Spot)
      requires old(Valid()) && at.h < MAX_SIZE && TakenOut(at)
      ensures Holds(m.chains[at.h], at.h, m.parts[at.h])
    {
      hide Linked, Total, Used, Agree;
      var chain, chain' := old(m.chains)[at.h], m.chains[at.h];
      assert old(Holds(m.chains[at.h], at.h, m.parts[at.h])) by {
        assert old(BucketOk(m.chains[at.h], entries[at.h], at.h, m.parts[at.h]));
      }
      forall j {:trigger chain[j]} | 0 <= j < |chain| && j != at.i
        ensures chain[j].value == old(chain[j].value) && chain[j].key != chain[at.i].key
      {
        assert old(m.chains)[at.h][j] in old(m.cells);
      }
      forall k | k in m.parts[at.h] ensures HasKey(chain', k) {
        assert HasKey(chain, k);
        UnlinkedKeys(chain, chain', at.i, k);
      }
    }

    twostate lemma Unlinked(at: Spot)
      requires old(Valid()) && at.h < MAX_SIZE && TakenOut(at)
      ensures forall h {:trigger m.chains[h]} :: 0 <= h < MAX_SIZE ==> BucketOk(m.chains[h], entries[h], h, m.parts[h])
    {
      var chain := old(m.chains)[at.h];
      var touched := chain[if at.i == 0 then 0 else at.i - 1];
      assert HashOf(touched.key) == at.h by {
        assert old(BucketOk(m.chains[at.h], entries[at.h], at.h, m.parts[at.h]));
      }
      UnlinkedLinks(at);
      UnlinkedHolds(at);
      OthersKept(touched);
    }

    method DropFirst(index: nat)
      requires Valid() && index < MAX_SIZE && m.chains[index] != []
      modifies this, entries
      ensures Valid() && m == WithoutNode(old(m), index, 0) && length == old(length) - 1
      ensures numEntries == old(numEntries) - if |old(m.chains)[index]| == 1 then 1 else 0
    {
      hide Agree, BucketOk, Total, Used;
      ghost var head := m.chains[index][0];
      assert HashOf(head.key) == index && entries[index] == head && (head.next == null <==> |m.chains[index]| == 1) by {
        NodeAt(Spot(index, 0));
      }
      var rest := entries[index].next;
      entries[index] := rest;
      length := length - 1;
      numEntries := numEntries - if rest == null then 1 else 0;   // the bucket may be empty now
      m := WithoutNode(m, index, 0);
      Unlinked(Spot(index, 0));
      WithoutNodeShape(old(m), old(length), old(numEntries), index, 0);
    }

    method DropLater(ghost at: Spot, entry: Cell, prev: Cell)
      requires Valid() && at.h < MAX_SIZE && 0 < at.i < |m.chains[at.h]|
      requires m.chains[at.h][at.i] == entry && m.chains[at.h][at.i - 1] == prev
      modifies this, prev
      ensures Valid() && m == WithoutNode(old(m), at.h, at.i)
      ensures length == old(length) - 1 && numEntries == old(numEntries)
    {
      hide Agree, BucketOk, Total, Used;
      assert HashOf(entry.key) == at.h by { NodeAt(at); }
      assert HashOf(prev.key) == at.h by { NodeAt(Spot(at.h, at.i - 1)); }
      prev.next := entry.next;
      length := length - 1;
      m := WithoutNode(m, at.h, at.i);
      Unlinked(at);
      WithoutNodeShape(old(m), old(length), old(numEntries), at.h, at.i);
    }

    lemma Absent(k: Ssn)
      requires Valid() && !HasKey(m.chains[HashOf(k)], k)
      ensures k !in m.contents && m.contents - {k} == m.contents
    {
      var h: int := HashOf(k);
      assert BucketOk(m.chains[h], entries[h], h, m.parts[h]);
    }

    lemma HeadIs(h: nat)
      requires Valid() && h < MAX_SIZE
      ensures entries[h] == if m.chains[h] == [] then null else m.chains[h][0]
    {
      assert BucketOk(m.chains[h], entries[h], h, m.parts[h]);
    }

    /** The node with key k, if any, is unlinked from its chain. */
    method Remove(k: Ssn)
      requires Valid()
      modifies this, entries, m.cells
      ensures Valid() && m.cells == old(m.cells) && m.contents == old(m.contents) - {k}
      ensures length == old(length) - if k in old(m.contents) then 1 else 0
      ensures forall h {:trigger m.chains[h]} :: 0 <= h < MAX_SIZE && h != HashOf(k) ==> m.chains[h] == old(m.chains)[h]
      ensures var chain := old(m.chains)[HashOf(k)];
              chain != [] && chain[0].key == k ==> m.chains[HashOf(k)] == chain[1..]
      ensures k !in old(m.contents) ==> m == old(m) && numEntries == old(numEntries)
      ensures k in old(m.contents) ==>
                var chain := old(m.chains)[HashOf(k)];
                && (exists i :: 0 <= i < |chain| && chain[i].key == k
                                && m.chains[HashOf(k)] == chain[..i] + chain[i + 1..])
                && numEntries == old(numEntries) - if |chain| == 1 then 1 else 0
    {
      hide Agree, BucketOk, Total, Used;
      var index: int := DigestOfKey(k);
      HeadIs(index);
      if entries[index] == null {
        Absent(k);
      } else if entries[index].key == k {
        NodeAt(Spot(index, 0));
        DropFirst(index);
      } else {
        var entry, prev, i := Walk(index, k);
        if entry != null {
          NodeAt(Spot(index, i));
          DropLater(Spot(index, i), entry, prev);
        } else {
          Absent(k);
        }
      }
    }

    predicate IsEmpty()
      reads this
    {
      length == 0
    }

    lemma SomeChain(i: nat)
      requires Valid() && length != 0 && i <= MAX_SIZE
      requires forall h :: 0 <= h < i ==> m.chains[h] == []
      ensures i < MAX_SIZE
    {
      TotalCovers(m.chains, MAX_SIZE);
    }

    /** The inner loop of ht_destroy: removes the keys of one bucket, head by head. */
    method EmptyBucket(i: nat)
      requires Valid() && i < MAX_SIZE
      modifies this, entries, m.cells
      ensures Valid() && m.cells == old(m.cells) && m.chains[i] == []
      ensures forall h {:trigger m.chains[h]} :: 0 <= h < MAX_SIZE && h != i ==> m.chains[h] == old(m.chains)[h]
    {
      var entry := entries[i];
      while entry != null
        invariant Valid() && m.cells == old(m.cells) && entry == entries[i]
        invariant forall h {:trigger m.chains[h]} :: 0 <= h < MAX_SIZE && h != i ==> m.chains[h] == old(m.chains)[h]
        decreases |m.chains[i]|
      {
        assert BucketOk(m.chains[i], entries[i], i, m.parts[i]);
        NodeAt(Spot(i, 0));
        var temp := entry;
        entry := entry.next;
        Remove(temp.key);
        assert BucketOk(m.chains[i], entries[i], i, m.parts[i]);
      }
      assert BucketOk(m.chains[i], entries[i], i, m.parts[i]);
    }

    /** Empties the table bucket by bucket. The loop only tests the length, and yet the bucket index
        stays below 256. */
    method Destroy()
      requires Valid()
      modifies this, entries, m.cells
      ensures Valid() && m.contents == map[] && length == 0
    {
      var i := 0;
      while !IsEmpty()
        invariant Valid() && i <= MAX_SIZE && m.cells == old(m.cells)
        invariant forall h :: 0 <= h < i ==> m.chains[h] == []
        decreases MAX_SIZE - i
      {
        SomeChain(i);
        EmptyBucket(i);
        i := i + 1;
      }
      NothingLeft();
    }

    lemma NothingLeft()
      requires Valid() && length == 0
      ensures m.contents == map[]
    {
      TotalCovers(m.chains, MAX_SIZE);
      forall k ensures k !in m.contents {
        var h: int := HashOf(k);
        assert BucketOk(m.chains[h], entries[h], h, m.parts[h]);
        assert m.chains[h] == [];
        assert !HasKey(m.chains[h], k);
      }
    }
  }
}
