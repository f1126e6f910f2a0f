/** Sums over everything that is on its way to the members of a ring. */
module NetSum {
  import opened Base
  import opened StoreSpec
  import opened NodeSpec
  import opened Network
  import opened NetInv

  // ---- sums over sequences ----

  ghost function Sum<T(!new)>(xs: seq<T>, g: T -> nat): nat {
    if xs == [] then 0 else g(xs[0]) + Sum(xs[1..], g)
  }

  lemma {:induction false} SumConcat<T(!new)>(xs: seq<T>, ys: seq<T>, g: T -> nat)
    ensures Sum(xs + ys, g) == Sum(xs, g) + Sum(ys, g)
  {
    if xs == [] {
      assert xs + ys == ys;
    } else {
      assert (xs + ys)[1..] == xs[1..] + ys;
      SumConcat(xs[1..], ys, g);
    }
  }

  lemma SumOne<T(!new)>(x: T, g: T -> nat)
    ensures Sum([x], g) == g(x)
  {
    assert [x][1..] == [];
  }

  lemma {:induction false} SumSame<T(!new)>(xs: seq<T>, g: T -> nat, h: T -> nat)
    requires forall i {:trigger xs[i]} :: 0 <= i < |xs| ==> g(xs[i]) == h(xs[i])
    ensures Sum(xs, g) == Sum(xs, h)
  {
    if xs != [] {
      forall i {:trigger xs[1..][i]} | 0 <= i < |xs[1..]| ensures g(xs[1..][i]) == h(xs[1..][i]) {
        assert xs[1..][i] == xs[i + 1];
      }
      SumSame(xs[1..], g, h);
    }
  }

  lemma {:induction false} SumAtMost<T(!new)>(xs: seq<T>, g: T -> nat, h: T -> nat)
    requires forall i {:trigger xs[i]} :: 0 <= i < |xs| ==> g(xs[i]) <= h(xs[i])
    ensures Sum(xs, g) <= Sum(xs, h)
  {
    if xs != [] {
      forall i {:trigger xs[1..][i]} | 0 <= i < |xs[1..]| ensures g(xs[1..][i]) <= h(xs[1..][i]) {
        assert xs[1..][i] == xs[i + 1];
      }
      SumAtMost(xs[1..], g, h);
    }
  }

  /** Two weights that differ in one element. */
  lemma SumBut<T(!new)>(xs: seq<T>, g: T -> nat, h: T -> nat, i: nat)
    requires i < |xs|
    requires forall k {:trigger xs[k]} :: 0 <= k < |xs| && k != i ==> g(xs[k]) == h(xs[k])
    ensures Sum(xs, h) + g(xs[i]) == Sum(xs, g) + h(xs[i])
  {
    var a, b := xs[..i], xs[i + 1..];
    assert xs == a + ([xs[i]] + b);
    SumConcat(a, [xs[i]] + b, g);
    SumConcat(a, [xs[i]] + b, h);
    SumConcat([xs[i]], b, g);
    SumConcat([xs[i]], b, h);
    SumOne(xs[i], g);
    SumOne(xs[i], h);
    SumSame(a, g, h);
    SumSame(b, g, h);
  }

  // ---- what is on its way ----

  /** What a message weighs for the node that will read it. */
  type Weight = (Id, Msg) -> nat

  ghost function ForReader(f: Weight, b: Id): Msg -> nat {
    m => f(b, m)
  }

  ghost function LinkLoad(s: Net, x: Id, b: Id, f: Weight): nat {
    Sum(Down(s, x, b), ForReader(f, b))
  }

  ghost function ForLink(s: Net, b: Id, f: Weight): Id -> nat {
    x => LinkLoad(s, x, b, f)
  }

  ghost function ReaderLoad(s: Net, b: Id, f: Weight): nat {
    if b in s.nodes then Sum(Pipe(s, b), ForLink(s, b, f)) else 0
  }

  ghost function ForNet(s: Net, f: Weight): Id -> nat {
    b => ReaderLoad(s, b, f)
  }

  /** Everything on the streams that the nodes of a list read. */
  ghost function Load(s: Net, order: seq<Id>, f: Weight): nat {
    Sum(order, ForNet(s, f))
  }

  // ---- changes ----

  /** Node a reads the same from the same streams. */
  ghost predicate ReadsSame(s: Net, s': Net, a: Id) {
    && a in s.nodes && a in s'.nodes && Pipe(s', a) == Pipe(s, a)
    && (forall i {:trigger Pipe(s, a)[i]} :: 0 <= i < |Pipe(s, a)| ==>
          Down(s', Pipe(s, a)[i], a) == Down(s, Pipe(s, a)[i], a))
  }

  lemma SameReader(s: Net, s': Net, a: Id, f: Weight)
    requires ReadsSame(s, s', a)
    ensures ReaderLoad(s', a, f) == ReaderLoad(s, a, f)
  {
    SumSame(Pipe(s, a), ForLink(s, a, f), ForLink(s', a, f));
  }

  lemma SameLoad(s: Net, s': Net, order: seq<Id>, f: Weight)
    requires forall i {:trigger order[i]} :: 0 <= i < |order| ==> ReadsSame(s, s', order[i])
    ensures Load(s', order, f) == Load(s, order, f)
  {
    forall i {:trigger order[i]} | 0 <= i < |order| ensures ReaderLoad(s', order[i], f) == ReaderLoad(s, order[i], f) {
      SameReader(s, s', order[i], f);
    }
    SumSame(order, ForNet(s, f), ForNet(s', f));
  }

  /** Only node b reads something else. */
  ghost predicate OthersRead(s: Net, s': Net, order: seq<Id>, b: Id) {
    forall i {:trigger order[i]} :: 0 <= i < |order| && order[i] != b ==> ReadsSame(s, s', order[i])
  }

  lemma OneReader(s: Net, s': Net, order: seq<Id>, b: Id, f: Weight)
    requires Distinct(order) && b in order && OthersRead(s, s', order, b)
    ensures Load(s', order, f) + ReaderLoad(s, b, f) == Load(s, order, f) + ReaderLoad(s', b, f)
  {
    var i :| 0 <= i < |order| && order[i] == b;
    forall k {:trigger order[k]} | 0 <= k < |order| && k != i
      ensures ReaderLoad(s, order[k], f) == ReaderLoad(s', order[k], f)
    {
      SameReader(s, s', order[k], f);
    }
    SumBut(order, ForNet(s, f), ForNet(s', f), i);
  }

  /** Of what b reads only the stream from x changed. */
  ghost predicate OtherLinks(s: Net, s': Net, x: Id, b: Id) {
    && b in s.nodes && b in s'.nodes && Pipe(s', b) == Pipe(s, b) && Distinct(Pipe(s, b)) && x in Pipe(s, b)
    && (forall y: Id {:trigger Down(s', y, b)} :: y != x ==> Down(s', y, b) == Down(s, y, b))
  }

  lemma OneLink(s: Net, s': Net, x: Id, b: Id, f: Weight)
    requires OtherLinks(s, s', x, b)
    ensures ReaderLoad(s', b, f) + LinkLoad(s, x, b, f) == ReaderLoad(s, b, f) + LinkLoad(s', x, b, f)
  {
    var p := Pipe(s, b);
    var i :| 0 <= i < |p| && p[i] == x;
    forall k {:trigger p[k]} | 0 <= k < |p| && k != i ensures LinkLoad(s, p[k], b, f) == LinkLoad(s', p[k], b, f) {
      assert Down(s', p[k], b) == Down(s, p[k], b);
    }
    SumBut(p, ForLink(s, b, f), ForLink(s', b, f), i);
  }

  lemma LinkChanged(s: Net, s': Net, order: seq<Id>, x: Id, b: Id, f: Weight)
    requires Distinct(order) && b in order && OthersRead(s, s', order, b) && OtherLinks(s, s', x, b)
    ensures Load(s', order, f) + LinkLoad(s, x, b, f) == Load(s, order, f) + LinkLoad(s', x, b, f)
  {
    OneReader(s, s', order, b, f);
    OneLink(s, s', x, b, f);
  }

  lemma PopLoad(s: Net, s': Net, order: seq<Id>, x: Id, b: Id, f: Weight)
    requires Distinct(order) && b in order && OthersRead(s, s', order, b) && OtherLinks(s, s', x, b)
    requires Down(s, x, b) != [] && Down(s', x, b) == Down(s, x, b)[1..]
    ensures Load(s', order, f) + f(b, Down(s, x, b)[0]) == Load(s, order, f)
  {
    LinkChanged(s, s', order, x, b, f);
  }

  lemma PushLoad(s: Net, s': Net, order: seq<Id>, x: Id, b: Id, ms: seq<Msg>, f: Weight)
    requires Distinct(order) && b in order && OthersRead(s, s', order, b) && OtherLinks(s, s', x, b)
    requires Down(s', x, b) == Down(s, x, b) + ms
    ensures Load(s', order, f) == Load(s, order, f) + Sum(ms, ForReader(f, b))
  {
    LinkChanged(s, s', order, x, b, f);
    SumConcat(Down(s, x, b), ms, ForReader(f, b));
  }
}
