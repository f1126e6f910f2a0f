/** What a node stores, on the heap: the hash table and the parallel key array ssns[] of struct
    self_data. src/hash_handling.c keeps the two in agreement by hand. */
module Storage {
  import opened Base
  import opened Hash
  import opened Ranges
  import opened StoreSpec
  import opened NodeSpec
  import opened HashTable

  // ---- key sequences ----

  /** Removing the key at i, where it occurs first. */
  lemma {:induction false} WithoutAt(keys: seq<Ssn>, i: nat)
    requires Distinct(keys) && i < |keys|
    ensures Without(keys, keys[i]) == keys[..i] + keys[i + 1..]
  {
    if i == 0 {
      assert keys[..0] + keys[1..] == keys[1..];
    } else {
      assert keys[1..][i - 1] == keys[i] && keys[0] != keys[i];
      WithoutAt(keys[1..], i - 1);
      assert keys[..i] == [keys[0]] + keys[1..][..i - 1];
      assert keys[i + 1..] == keys[1..][i..];
    }
  }

  lemma {:induction false} SplitSnoc(keys: seq<Ssn>, k: Ssn, lo: byte, hi: byte)
    ensures Inside(keys + [k], lo, hi) == Inside(keys, lo, hi) + if InRange(HashOf(k), lo, hi) then [k] else []
    ensures Outside(keys + [k], lo, hi) == Outside(keys, lo, hi) + if InRange(HashOf(k), lo, hi) then [] else [k]
  {
    if keys != [] {
      assert (keys + [k])[1..] == keys[1..] + [k];
      SplitSnoc(keys[1..], k, lo, hi);
    }
  }

  lemma {:induction false} InsertsSnoc(keys: seq<Ssn>, vals: map<Ssn, Value>, k: Ssn)
    requires k in vals
    ensures Inserts(keys + [k], vals) == Inserts(keys, vals) + [Insert(k, vals[k])]
  {
    if keys == [] {
      assert keys + [k] == [k] && [k][1..] == [];
    } else {
      var first: seq<Msg> := if keys[0] in vals then [Insert(keys[0], vals[keys[0]])] else [];
      assert (keys + [k])[0] == keys[0] && (keys + [k])[1..] == keys[1..] + [k];
      InsertsSnoc(keys[1..], vals, k);
      assert Inserts(keys + [k], vals) == first + Inserts(keys[1..] + [k], vals);
      assert Inserts(keys, vals) == first + Inserts(keys[1..], vals);
    }
  }

  // ---- the transfer of a split: deleting while scanning ----

  /** After the first p keys of `was` have been looked at, the store is `now`: those in range are
      kept, the others have been sent and deleted, the rest is untouched; i is the index to go on at. */
  ghost predicate Scanned(was: Store, now: Store, lo: byte, hi: byte, p: nat, i: nat, sent: seq<Msg>) {
    && p <= |was.keys|
    && now.keys == Inside(was.keys[..p], lo, hi) + was.keys[p..]
    && i == |Inside(was.keys[..p], lo, hi)|
    && sent == Inserts(Outside(was.keys[..p], lo, hi), was.vals)
    && (forall k {:trigger now.vals[k]} :: k in now.vals ==> k in was.vals && now.vals[k] == was.vals[k])
  }

  lemma ScannedStart(was: Store, lo: byte, hi: byte)
    ensures Scanned(was, was, lo, hi, 0, 0, [])
  {
    assert was.keys[..0] == [] && was.keys[0..] == was.keys;
    assert [] + was.keys == was.keys;
  }

  /** One key further: it is kept, or sent and deleted. */
  lemma ScannedNext(was: Store, now: Store, lo: byte, hi: byte, p: nat, i: nat, sent: seq<Msg>)
    requires p < |was.keys| && Scanned(was, now, lo, hi, p, i, sent) && was.keys[p] in now.vals
    ensures i < |now.keys| && now.keys[i] == was.keys[p]
    ensures var k := was.keys[p];
            if InRange(HashOf(k), lo, hi) then Scanned(was, now, lo, hi, p + 1, i + 1, sent)
            else Scanned(was, Store(now.keys[..i] + now.keys[i + 1..], now.vals - {k}), lo, hi, p + 1, i,
                         sent + [Insert(k, now.vals[k])])
  {
    var k := was.keys[p];
    var kept := Inside(was.keys[..p], lo, hi);
    assert was.keys[..p + 1] == was.keys[..p] + [k];
    SplitSnoc(was.keys[..p], k, lo, hi);
    assert was.keys[p..] == [k] + was.keys[p + 1..];
    assert now.keys == kept + ([k] + was.keys[p + 1..]) == (kept + [k]) + was.keys[p + 1..];
    assert now.keys[..i] + now.keys[i + 1..] == kept + was.keys[p + 1..];
    var gone := Outside(was.keys[..p], lo, hi);
    assert gone + [] == gone && kept + [] == kept;
    InsertsSnoc(gone, was.vals, k);
  }

  lemma ScannedAll(was: Store, now: Store, lo: byte, hi: byte, i: nat, sent: seq<Msg>)
    requires Scanned(was, now, lo, hi, |was.keys|, i, sent) && StoreOk(was) && StoreOk(now)
    ensures now == Keep(was, lo, hi) && sent == Inserts(Outside(was.keys, lo, hi), was.vals)
  {
    assert was.keys[..|was.keys|] == was.keys;
    InsideMembers(was.keys, lo, hi);
    assert now.vals == Restrict(was.vals, lo, hi);
  }

  /** The part of a node's memory that holds entries. */
  class Entries {
    const ssns: array<Option<Ssn>>     // char *ssns[MAX_SIZE], None for NULL
    const table: Table
    ghost var keys: seq<Ssn>

    ghost function Contents(): Store
      reads this, table
    {
      Store(keys, table.m.contents)
    }

    ghost predicate Listed()
      reads this, ssns
    {
      && ssns.Length == MAX_SIZE && |keys| <= MAX_SIZE
      && forall i {:trigger ssns[i]} :: 0 <= i < |keys| ==> ssns[i] == Some(keys[i])
    }

    /** ssns[0..length) is a duplicate-free enumeration of exactly the keys in the table. */
    ghost predicate Valid()
      reads this, ssns, table, table.entries, table.m.cells
    {
      Listed() && table.Valid() && StoreOk(Contents()) && table.length == |keys|
    }

    constructor ()
      ensures Valid() && Contents() == EMPTY_STORE && ssns.Length == 256
      ensures fresh(ssns) && fresh(table) && fresh(table.entries) && fresh(table.m.cells)
    {
      ssns := new Option<Ssn>[MAX_SIZE](i => None);
      table := new Table();
      keys := [];
    }

    method Lookup(k: Ssn) returns (r: Option<Value>)
      requires Valid()
      ensures r == if k in Contents().vals then Some(Contents().vals[k]) else None
    {
      r := table.Lookup(k);
    }

    lemma ListedIff(k: Ssn)
      requires Valid()
      ensures Distinct(keys) && (k in keys <==> k in Contents().vals)
    {
    }

    lemma KeyListed(i: nat)
      requires Valid() && i < |keys|
      ensures Distinct(keys) && keys[i] in Contents().vals
    {
      assert keys[i] in keys;
    }

    /** handle_ht_insert, for a key in range; a node has room for 256 keys. */
    method Insert(k: Ssn, v: Value)
      requires Valid() && (|keys| < MAX_SIZE || k in Contents().vals)
      modifies this, ssns, table, table.entries, table.m.cells
      ensures Valid() && Contents() == Put(old(Contents()), k, v) && fresh(table.m.cells - old(table.m.cells))
      ensures table.m.contents == old(table.m.contents)[k := v]
      ensures keys == if k in old(table.m.contents) then old(keys) else old(keys) + [k]
    {
      hide HashTable.Table.Valid, StoreOk;
      var n := table.length;
      StoreOpsKeepAgreement(Contents(), k, v, 0, 0);
      ListedIff(k);
      table.Insert(k, v);
      if n != table.length {
        ssns[n] := Some(k);
        keys := keys + [k];
      }
    }

    /** The gap at i is closed and the last slot, n - 1, cleared. */
    method CloseGap(i: nat, n: nat)
      requires Listed() && i < |keys| == n
      modifies this`keys, ssns
      ensures Listed() && keys == old(keys)[..i] + old(keys)[i + 1..] && ssns[n - 1] == None
      ensures forall x {:trigger ssns[x]} :: n <= x < ssns.Length ==> ssns[x] == old(ssns[x])
    {
      ghost var was := keys;
      var j := i;
      while j < n - 1
        invariant i <= j <= n - 1
        invariant forall x {:trigger ssns[x]} :: 0 <= x < n && (x < i || j <= x) ==> ssns[x] == Some(was[x])
        invariant forall x {:trigger ssns[x]} :: i <= x < j ==> ssns[x] == Some(was[x + 1])
        invariant forall x {:trigger ssns[x]} :: n <= x < ssns.Length ==> ssns[x] == old(ssns[x])
      {
        ssns[j] := ssns[j + 1];
        j := j + 1;
      }
      ssns[n - 1] := None;
      keys := was[..i] + was[i + 1..];
    }

    /** The key at index i leaves the table and the array. */
    method DropAt(i: nat, n: nat)
      requires Valid() && i < n == |keys|
      modifies this, ssns, table, table.entries, table.m.cells
      ensures Valid() && table.m.cells == old(table.m.cells)
      ensures keys == old(keys)[..i] + old(keys)[i + 1..] && table.m.contents == old(table.m.contents) - {old(keys)[i]}
      ensures Contents() == Delete(old(Contents()), old(keys)[i])
    {
      hide HashTable.Table.Valid, StoreOk;
      KeyListed(i);
      WithoutAt(keys, i);
      StoreOpsKeepAgreement(Contents(), keys[i], Value([], []), 0, 0);
      table.Remove(ssns[i].value);
      CloseGap(i, n);
    }

    /** handle_ht_remove, for a key in range. */
    method Remove(k: Ssn)
      requires Valid()
      modifies this, ssns, table, table.entries, table.m.cells
      ensures Valid() && Contents() == Delete(old(Contents()), k) && table.m.cells == old(table.m.cells)
      ensures table.m.contents == old(table.m.contents) - {k}
    {
      var n := table.length;
      var i := 0;
      while i < n
        invariant 0 <= i <= n && Valid() && n == |keys|
        invariant Contents() == old(Contents()) && table.m.cells == old(table.m.cells)
        invariant forall x :: 0 <= x < i ==> keys[x] != k
      {
        if ssns[i] == Some(k) {
          DropAt(i, n);
          return;
        }
        i := i + 1;
      }
      assert k !in keys;
    }

    /** The entry whose key is at index i, as a VAL_INSERT, leaves the table and the array. None would
        be the branch for a listed key without a value. */
    method SendAt(i: nat, n: nat) returns (m: Option<Msg>)
      requires Valid() && i < n == |keys|
      modifies this, ssns, table, table.entries, table.m.cells
      ensures Valid() && table.m.cells == old(table.m.cells)
      ensures var k := old(keys)[i];
              && k in old(table.m.contents) && m == Some(Msg.Insert(k, old(table.m.contents)[k]))
              && Contents() == Store(old(keys)[..i] + old(keys)[i + 1..], old(table.m.contents) - {k})
    {
      KeyListed(i);
      var res := table.Lookup(ssns[i].value);
      if res == None {
        return None;
      }
      m := Some(Msg.Insert(ssns[i].value, res.value));
      DropAt(i, n);
    }

    lemma KeyAt(was: Store, lo: byte, hi: byte, p: nat, i: nat, sent: seq<Msg>)
      requires Valid() && Scanned(was, Contents(), lo, hi, p, i, sent) && i < |keys|
      ensures p < |was.keys| && was.keys[p] in Contents().vals
    {
      assert keys[i] == was.keys[p];
      assert keys[i] in keys;
    }

    /** The loop of send_new_range_and_entries: every entry outside [lo, hi] is sent once, in array
        order, and deleted; every entry inside is kept; the loop never finds a listed key without a
        value. */
    method TransferOutside(lo: byte, hi: byte) returns (sent: seq<Msg>, missing: bool)
      requires Valid()
      modifies this, ssns, table, table.entries, table.m.cells
      ensures Valid() && Contents() == Keep(old(Contents()), lo, hi) && table.m.cells == old(table.m.cells)
      ensures sent == Inserts(Outside(old(keys), lo, hi), old(Contents()).vals)
      ensures forall k :: k in table.m.contents <==> k in old(table.m.contents) && lo <= HashOf(k) <= hi
      ensures !missing
    {
      hide HashTable.Table.Valid, Scanned, StoreOk, Hash8;
      ghost var was := Contents();
      ghost var p := 0;
      var n := table.length;
      var i := 0;
      sent, missing := [], false;
      ScannedStart(was, lo, hi);
      while i < n
        invariant Valid() && table.m.cells == old(table.m.cells) && n == |keys| && p <= |was.keys|
        invariant 0 <= i && Scanned(was, Contents(), lo, hi, p, i, sent) && n == i + (|was.keys| - p)
        decreases |was.keys| - p
      {
        KeyAt(was, lo, hi, p, i, sent);
        ScannedNext(was, Contents(), lo, hi, p, i, sent);
        var k := ssns[i].value;
        var h := DigestOfKey(k);
        if !InRange(h, lo, hi) {
          var m := SendAt(i, n);
          if m == None {
            return sent, true;
          }
          sent := sent + [m.value];
          n := n - 1;
        } else {
          i := i + 1;
        }
        p := p + 1;
      }
      assert p == |was.keys|;
      ScannedAll(was, Contents(), lo, hi, i, sent);
    }

    /** send_all_entries: every entry is sent once, in array order, and the table ends up empty. */
    method SendAll() returns (sent: seq<Msg>, missing: bool)
      requires Valid()
      modifies table, table.entries, table.m.cells
      ensures sent == Inserts(keys, old(Contents()).vals) && !missing
      ensures table.Valid() && table.m.contents == map[] && table.length == 0
    {
      hide HashTable.Table.Valid, StoreOk;
      var n := table.length;
      ghost var vals := table.m.contents;
      sent, missing := [], false;
      for i := 0 to n
        invariant Valid() && n == |keys| && table.m == old(table.m) && sent == Inserts(keys[..i], vals) && !missing
      {
        KeyListed(i);
        var res := table.Lookup(ssns[i].value);
        if res == None {
          missing := true;
        } else {
          assert keys[..i + 1] == keys[..i] + [keys[i]];
          InsertsSnoc(keys[..i], vals, keys[i]);
          sent := sent + [Msg.Insert(ssns[i].value, res.value)];
        }
      }
      assert keys[..n] == keys;
      for i := 0 to n
        invariant Listed() && n == |keys| && table.Valid() && table.m.cells == old(table.m.cells)
        invariant unchanged(ssns)
      {
        table.Remove(ssns[i].value);
      }
      table.Destroy();
    }
  }
}
