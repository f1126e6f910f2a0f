/** What a node stores, as values: the key array ssns[0..length) and the table's contents. */
module StoreSpec {
  import opened Base
  import opened Hash
  import opened Ranges

  datatype Store = Store(keys: seq<Ssn>, vals: map<Ssn, Value>)

  const EMPTY_STORE := Store([], map[])

  ghost predicate Distinct<T>(s: seq<T>) {
    forall i, j :: 0 <= i < j < |s| ==> s[i] != s[j]
  }

  /** The key array enumerates the table's keys, each once. */
  ghost predicate StoreOk(st: Store) {
    && Distinct(st.keys)
    && forall k :: k in st.keys <==> k in st.vals
  }

  function Without(keys: seq<Ssn>, k: Ssn): seq<Ssn> {
    if keys == [] then [] else if keys[0] == k then keys[1..] else [keys[0]] + Without(keys[1..], k)
  }

  function Put(st: Store, k: Ssn, v: Value): Store {
    Store(if k in st.vals then st.keys else st.keys + [k], st.vals[k := v])
  }

  function Delete(st: Store, k: Ssn): Store {
    if k in st.vals then Store(Without(st.keys, k), st.vals - {k}) else st
  }

  /** The keys of the array that hash into [lo, hi], in array order. */
  function Inside(keys: seq<Ssn>, lo: byte, hi: byte): seq<Ssn> {
    if keys == [] then []
    else (if InRange(HashOf(keys[0]), lo, hi) then [keys[0]] else []) + Inside(keys[1..], lo, hi)
  }

  /** The keys of the array that hash outside [lo, hi], in array order. */
  function Outside(keys: seq<Ssn>, lo: byte, hi: byte): seq<Ssn> {
    if keys == [] then []
    else (if InRange(HashOf(keys[0]), lo, hi) then [] else [keys[0]]) + Outside(keys[1..], lo, hi)
  }

  function Restrict(vals: map<Ssn, Value>, lo: byte, hi: byte): map<Ssn, Value> {
    map k | k in vals && InRange(HashOf(k), lo, hi) :: vals[k]
  }

  /** What a node keeps of its store when its range shrinks to [lo, hi]. */
  function Keep(st: Store, lo: byte, hi: byte): Store {
    Store(Inside(st.keys, lo, hi), Restrict(st.vals, lo, hi))
  }

  lemma {:induction false} WithoutMembers(keys: seq<Ssn>, k: Ssn)
    requires Distinct(keys)
    ensures Distinct(Without(keys, k))
    ensures forall x :: x in Without(keys, k) <==> x in keys && x != k
  {
    if keys != [] {
      assert keys == [keys[0]] + keys[1..];
      assert keys[0] !in keys[1..];
      WithoutMembers(keys[1..], k);
    }
  }

  lemma {:induction false} InsideMembers(keys: seq<Ssn>, lo: byte, hi: byte)
    requires Distinct(keys)
    ensures Distinct(Inside(keys, lo, hi)) && Distinct(Outside(keys, lo, hi))
    ensures forall x :: x in Inside(keys, lo, hi) <==> x in keys && InRange(HashOf(x), lo, hi)
    ensures forall x :: x in Outside(keys, lo, hi) <==> x in keys && !InRange(HashOf(x), lo, hi)
  {
    if keys != [] {
      assert keys == [keys[0]] + keys[1..];
      assert keys[0] !in keys[1..];
      InsideMembers(keys[1..], lo, hi);
    }
  }

  /** Insert, overwrite, remove and split all keep the array an enumeration of the table. */
  lemma StoreOpsKeepAgreement(st: Store, k: Ssn, v: Value, lo: byte, hi: byte)
    requires StoreOk(st)
    ensures StoreOk(Put(st, k, v)) && StoreOk(Delete(st, k)) && StoreOk(Keep(st, lo, hi))
    ensures Delete(st, k).vals == st.vals - {k}
  {
    WithoutMembers(st.keys, k);
    InsideMembers(st.keys, lo, hi);
    if k !in st.vals {
      assert st.vals - {k} == st.vals;
    }
  }
}
