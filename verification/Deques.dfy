/**
 A queue line holds one deque per event loop, and the server holds one queue line per queue.
 This module gives that two-level layout its counting lemmas: what one insertion or
 removal does to the multiset of everything held anywhere.
 */
module Deques {

  type Deques<T> = seq<seq<seq<T>>>

  /** An empty deque for each of n loops. */
  function NewLine<T>(n: nat): seq<seq<T>> {
    seq(n, _ => [])
  }

  function RemoveAt<T>(d: seq<T>, i: nat): (r: seq<T>)
    requires i < |d|
  {
    d[..i] + d[i + 1..]
  }

  function InsertAt<T>(d: seq<T>, i: nat, x: T): (r: seq<T>)
    requires i <= |d|
  {
    d[..i] + [x] + d[i..]
  }

  /** The sequence without the occurrences of x. */
  function Without<T(==)>(xs: seq<T>, x: T): (r: seq<T>)
    ensures multiset(r) == multiset(xs)[x := 0]
  {
    if xs == [] then []
    else
      assert xs == [xs[0]] + xs[1..];
      if xs[0] == x then Without(xs[1..], x)
      else [xs[0]] + Without(xs[1..], x)
  }

  /** Removing the only occurrence. */
  lemma {:induction false} WithoutIsRemoveAt<T>(xs: seq<T>, i: nat)
    requires i < |xs| && forall j :: 0 <= j < |xs| && j != i ==> xs[j] != xs[i]
    ensures Without(xs, xs[i]) == RemoveAt(xs, i)
  {
    assert xs == [xs[0]] + xs[1..];
    if i == 0 {
      WithoutNothing(xs[1..], xs[0]);
    } else {
      WithoutIsRemoveAt(xs[1..], i - 1);
      assert RemoveAt(xs, i) == [xs[0]] + RemoveAt(xs[1..], i - 1);
    }
  }

  lemma {:induction false} WithoutNothing<T>(xs: seq<T>, x: T)
    requires x !in xs
    ensures Without(xs, x) == xs
  {
    if xs != [] {
      assert xs == [xs[0]] + xs[1..];
      WithoutNothing(xs[1..], x);
    }
  }

  function SetAt<T>(ds: Deques<T>, q: nat, l: nat, d: seq<T>): (r: Deques<T>)
    requires q < |ds| && l < |ds[q]|
    ensures |r| == |ds| && |r[q]| == |ds[q]| && r[q][l] == d
    ensures forall q' :: 0 <= q' < |ds| && q' != q ==> r[q'] == ds[q']
    ensures forall l' :: 0 <= l' < |ds[q]| && l' != l ==> r[q][l'] == ds[q][l']
  {
    ds[q := ds[q][l := d]]
  }

  function Join<T>(ss: seq<seq<T>>): seq<T> {
    if ss == [] then [] else ss[0] + Join(ss[1..])
  }

  /** Everything held in any deque of any queue, in queue order and then loop order. */
  function Flat<T>(ds: Deques<T>): seq<T> {
    if ds == [] then [] else Join(ds[0]) + Flat(ds[1..])
  }

  lemma {:induction false} JoinAppend<T>(a: seq<seq<T>>, b: seq<seq<T>>)
    ensures Join(a + b) == Join(a) + Join(b)
  {
    if a == [] {
      assert a + b == b;
    } else {
      assert (a + b)[1..] == a[1..] + b;
      JoinAppend(a[1..], b);
    }
  }

  lemma {:induction false} FlatAppend<T>(a: Deques<T>, b: Deques<T>)
    ensures Flat(a + b) == Flat(a) + Flat(b)
  {
    if a == [] {
      assert a + b == b;
    } else {
      assert (a + b)[1..] == a[1..] + b;
      FlatAppend(a[1..], b);
    }
  }

  /** The deque at (q, l) sits between a prefix and a suffix that do not depend on its contents. */
  lemma FlatSplit<T>(ds: Deques<T>, q: nat, l: nat, d: seq<T>) returns (pre: seq<T>, post: seq<T>)
    requires q < |ds| && l < |ds[q]|
    ensures Flat(ds) == pre + ds[q][l] + post
    ensures Flat(SetAt(ds, q, l, d)) == pre + d + post
  {
    var line := ds[q];
    pre := Flat(ds[..q]) + Join(line[..l]);
    post := Join(line[l + 1..]) + Flat(ds[q + 1..]);
    FlatHole(ds, q, l);
    var es := SetAt(ds, q, l, d);
    FlatHole(es, q, l);
    assert es[..q] == ds[..q] && es[q + 1..] == ds[q + 1..];
    assert es[q][..l] == line[..l] && es[q][l + 1..] == line[l + 1..];
  }

  lemma FlatHole<T>(ds: Deques<T>, q: nat, l: nat)
    requires q < |ds| && l < |ds[q]|
    ensures Flat(ds) == Flat(ds[..q]) + Join(ds[q][..l]) + ds[q][l] + (Join(ds[q][l + 1..]) + Flat(ds[q + 1..]))
  {
    var line := ds[q];
    assert ds == ds[..q] + ([line] + ds[q + 1..]);
    FlatAppend(ds[..q], [line] + ds[q + 1..]);
    assert Flat([line] + ds[q + 1..]) == Join(line) + Flat(ds[q + 1..]) by {
      assert ([line] + ds[q + 1..])[1..] == ds[q + 1..];
    }
    assert line == line[..l] + ([line[l]] + line[l + 1..]);
    JoinAppend(line[..l], [line[l]] + line[l + 1..]);
    assert Join([line[l]] + line[l + 1..]) == line[l] + Join(line[l + 1..]) by {
      assert ([line[l]] + line[l + 1..])[1..] == line[l + 1..];
    }
  }

  lemma FlatHas<T>(ds: Deques<T>, q: nat, l: nat, i: nat)
    requires q < |ds| && l < |ds[q]| && i < |ds[q][l]|
    ensures ds[q][l][i] in multiset(Flat(ds))
  {
    FlatHole(ds, q, l);
    assert ds[q][l][i] in Flat(ds);
  }

  /** A line of empty deques adds nothing. */
  lemma {:induction false} JoinEmpty<T>(ss: seq<seq<T>>)
    requires forall l :: 0 <= l < |ss| ==> ss[l] == []
    ensures Join(ss) == []
  {
    if ss != [] {
      JoinEmpty(ss[1..]);
    }
  }

  lemma FlatNewLine<T>(ds: Deques<T>, line: seq<seq<T>>)
    requires forall l :: 0 <= l < |line| ==> line[l] == []
    ensures Flat(ds + [line]) == Flat(ds)
  {
    FlatAppend(ds, [line]);
    JoinEmpty(line);
    assert [line][1..] == [];
    assert Flat([line]) == Join(line) + Flat([line][1..]);
  }

  lemma BagOfFour<T>(a: seq<T>, b: seq<T>, c: seq<T>, d: seq<T>)
    ensures multiset(a + (b + c) + d) == multiset(a) + multiset(b) + multiset(c) + multiset(d)
  {
    assert multiset(a + (b + c) + d) == multiset(a + (b + c)) + multiset(d);
    assert multiset(a + (b + c)) == multiset(a) + multiset(b + c);
  }

  lemma FlatRemoved<T>(ds: Deques<T>, q: nat, l: nat, i: nat)
    requires q < |ds| && l < |ds[q]| && i < |ds[q][l]|
    ensures multiset(Flat(SetAt(ds, q, l, RemoveAt(ds[q][l], i)))) + multiset{ds[q][l][i]} == multiset(Flat(ds))
  {
    hide Flat, SetAt;
    var d, x := ds[q][l], ds[q][l][i];
    var pre, post := FlatSplit(ds, q, l, RemoveAt(d, i));
    assert d == d[..i] + ([x] + d[i + 1..]);
    BagOfFour(pre, d[..i], d[i + 1..], post);
    BagOfFour(pre, d[..i], [x] + d[i + 1..], post);
    assert multiset([x] + d[i + 1..]) == multiset{x} + multiset(d[i + 1..]);
  }

  lemma FlatInserted<T>(ds: Deques<T>, q: nat, l: nat, i: nat, x: T)
    requires q < |ds| && l < |ds[q]| && i <= |ds[q][l]|
    ensures multiset(Flat(SetAt(ds, q, l, InsertAt(ds[q][l], i, x)))) == multiset(Flat(ds)) + multiset{x}
  {
    hide Flat, SetAt;
    var d := ds[q][l];
    var pre, post := FlatSplit(ds, q, l, InsertAt(d, i, x));
    assert d == d[..i] + d[i..];
    assert InsertAt(d, i, x) == d[..i] + ([x] + d[i..]);
    BagOfFour(pre, d[..i], d[i..], post);
    BagOfFour(pre, d[..i], [x] + d[i..], post);
    assert multiset([x] + d[i..]) == multiset{x} + multiset(d[i..]);
  }
}
