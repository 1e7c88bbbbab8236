/**
 The nodes of the name trie as plain values. Node n is stored at position n - 1; a link of 0
 means "no child".
 */
module Tries {
  import opened Names

  datatype Step = Step(end: nat, std: nat, k: seq<nat>)

  const WIDTH := 96

  function Zeroed(): (s: Step)
    ensures Blank(s)
  {
    Step(0, 0, seq(WIDTH, _ => 0))
  }

  predicate Blank(s: Step) {
    s.end == 0 && s.std == 0 && |s.k| == WIDTH && forall c :: 0 <= c < WIDTH ==> s.k[c] == 0
  }

  /** The paths in a trie: the number of each, and for each number its path. */
  datatype Paths = Paths(node: map<string, nat>, path: seq<string>)

  const ROOT := Paths(map["" := 1], [""])

  predicate Storable(a: char) { 32 <= a as int < 128 }

  /** The characters that paths are made of; '*' ends the part of a name that is stored. */
  predicate Plain(a: char) { Storable(a) && a != '*' }

  function ColumnOf(a: char): (c: nat)
    requires Storable(a)
    ensures c < WIDTH
  {
    a as int - 32
  }

  function CharAt(c: nat): char
    requires c < WIDTH
  {
    (c + 32) as char
  }

  function Child(node: map<string, nat>, s: string, c: nat): nat
    requires c < WIDTH
  {
    if s + [CharAt(c)] in node then node[s + [CharAt(c)]] else 0
  }

  predicate Linked(node: map<string, nat>, s: string, step: Step) {
    |step.k| == WIDTH && forall c :: 0 <= c < WIDTH ==> step.k[c] == Child(node, s, c)
  }

  predicate ParentKnown(node: map<string, nat>, s: string) {
    s == "" || (Plain(s[|s| - 1]) && s[..|s| - 1] in node)
  }

  predicate NodeOk(p: Paths, s: string) {
    s in p.node ==> 1 <= p.node[s] <= |p.path| && p.path[p.node[s] - 1] == s && ParentKnown(p.node, s)
  }

  predicate PathOk(p: Paths, n: nat)
    requires n < |p.path|
  {
    p.path[n] in p.node && p.node[p.path[n]] == n + 1
  }

  /** The paths are closed under prefixes and numbered from 1, the root, on. */
  predicate Numbered(p: Paths) {
    && "" in p.node && p.node[""] == 1
    && (forall s :: s in p.node ==> NodeOk(p, s))
    && (forall n :: 0 <= n < |p.path| ==> PathOk(p, n))
  }

  /** Every node holds exactly the links to its children, and all beyond the last one is zero. */
  predicate Trie(steps: seq<Step>, p: Paths) {
    && |p.path| <= |steps|
    && Numbered(p)
    && (forall n :: 0 <= n < |p.path| ==> Linked(p.node, p.path[n], steps[n]))
    && (forall n :: |p.path| <= n < |steps| ==> Blank(steps[n]))
  }

  /** What the node of path s holds for that exact name, 0 if there is no such node. */
  function EndOf(steps: seq<Step>, p: Paths, s: string): nat {
    if s in p.node && 1 <= p.node[s] <= |steps| then steps[p.node[s] - 1].end else 0
  }

  /** What the node of path s holds for the names that start with it. */
  function StdOf(steps: seq<Step>, p: Paths, s: string): nat {
    if s in p.node && 1 <= p.node[s] <= |steps| then steps[p.node[s] - 1].std else 0
  }

  /** The table of names that the trie stands for. */
  function Stored(steps: seq<Step>, p: Paths): (n: Names)
    ensures Positive(n)
  {
    Names(map s | s in p.node && EndOf(steps, p, s) != 0 :: EndOf(steps, p, s),
          map s | s in p.node && StdOf(steps, p, s) != 0 :: StdOf(steps, p, s))
  }

  lemma SameStored(steps: seq<Step>, p: Paths, t: seq<Step>, r: Paths)
    requires forall s :: EndOf(t, r, s) == EndOf(steps, p, s) && StdOf(t, r, s) == StdOf(steps, p, s)
    ensures Stored(t, r) == Stored(steps, p)
  {
    assert forall s :: EndOf(t, r, s) != 0 ==> s in p.node && s in r.node;
    assert forall s :: StdOf(t, r, s) != 0 ==> s in p.node && s in r.node;
    hide EndOf, StdOf;
    assert Stored(t, r).exact == Stored(steps, p).exact;
    assert Stored(t, r).wild == Stored(steps, p).wild;
  }

  function SetLink(steps: seq<Step>, n: nat, c: nat, m: nat): (r: seq<Step>)
    requires 1 <= n <= |steps| && c < |steps[n - 1].k|
  {
    steps[n - 1 := steps[n - 1].(k := steps[n - 1].k[c := m])]
  }

  function SetEnd(steps: seq<Step>, n: nat, v: nat): seq<Step>
    requires 1 <= n <= |steps|
  {
    steps[n - 1 := steps[n - 1].(end := v)]
  }

  function SetStd(steps: seq<Step>, n: nat, v: nat): seq<Step>
    requires 1 <= n <= |steps|
  {
    steps[n - 1 := steps[n - 1].(std := v)]
  }

  function AddPath(p: Paths, s: string): Paths {
    Paths(p.node[s := |p.path| + 1], p.path + [s])
  }

  // Lookup

  /** No stored path passes the position where the walk gets stuck, so longer prefixes do not matter. */
  lemma {:induction false} StuckPrefix(wild: map<string, nat>, name: string, i: nat, j: nat)
    requires i <= j <= |name|
    requires forall k :: i < k <= j ==> name[..k] !in wild
    ensures LongestPrefix(wild, name, j) == LongestPrefix(wild, name, i)
  {
    if i < j {
      StuckPrefix(wild, name, i, j - 1);
    }
  }

  /** Paths reach the trie prefix by prefix. */
  lemma {:induction false} PrefixKnown(p: Paths, name: string, i: nat, j: nat)
    requires Numbered(p) && i <= j <= |name| && name[..j] in p.node
    ensures name[..i] in p.node
  {
    if i < j {
      assert NodeOk(p, name[..j]);
      assert name[..j][..j - 1] == name[..j - 1];
      PrefixKnown(p, name, i, j - 1);
    }
  }

  /** A walk that cannot go on at position i answers with what it has seen. */
  lemma StuckLookup(p: Paths, n: Names, name: string, i: nat)
    requires Numbered(p) && i < |name| && name[..i + 1] !in p.node
    requires n.exact.Keys <= p.node.Keys && n.wild.Keys <= p.node.Keys
    ensures Lookup(n, name) == LongestPrefix(n.wild, name, i)
  {
    forall k | i < k <= |name| ensures name[..k] !in p.node {
      if name[..k] in p.node {
        PrefixKnown(p, name, i + 1, k);
      }
    }
    assert name[..|name|] == name;
    StuckPrefix(n.wild, name, i, |name|);
  }

  // What single writes do

  lemma NewLinked(node: map<string, nat>, s: string, t: string, m: nat, step: Step)
    requires Linked(node, s, step) && t !in node && t != "" && s != t[..|t| - 1]
    ensures Linked(node[t := m], s, step)
  {
    forall c | 0 <= c < WIDTH ensures step.k[c] == Child(node[t := m], s, c) {
      assert (s + [CharAt(c)])[..|s|] == s;
    }
  }

  lemma ParentLinked(node: map<string, nat>, s: string, a: char, m: nat, step: Step)
    requires Linked(node, s, step) && Plain(a) && s + [a] !in node
    ensures Linked(node[s + [a] := m], s, step.(k := step.k[ColumnOf(a) := m]))
  {
    var k := step.k[ColumnOf(a) := m];
    forall c | 0 <= c < WIDTH ensures k[c] == Child(node[s + [a] := m], s, c) {
      assert (s + [CharAt(c)])[|s|] == CharAt(c);
      assert (s + [a])[|s|] == a;
    }
  }

  lemma LeafLinked(p: Paths, t: string, m: nat, step: Step)
    requires Numbered(p) && t !in p.node && Blank(step)
    ensures Linked(p.node[t := m], t, step)
  {
    var next := p.node[t := m];
    forall c | 0 <= c < WIDTH ensures Child(next, t, c) == step.k[c] {
      var u := t + [CharAt(c)];
      assert u[..|u| - 1] == t;
      assert u in p.node ==> NodeOk(p, u);
    }
  }

  lemma NumberedNext(p: Paths, s: string, a: char)
    requires Numbered(p) && s in p.node && Plain(a) && s + [a] !in p.node
    ensures Numbered(AddPath(p, s + [a]))
  {
    var t := s + [a];
    var next := AddPath(p, t);
    forall u | u in next.node ensures NodeOk(next, u) {
      NextNodeOk(p, s, a, u);
    }
    forall n | 0 <= n < |next.path| ensures PathOk(next, n) {
      assert n < |p.path| ==> PathOk(p, n);
    }
    assert t != "";
    hide NodeOk, PathOk;
  }

  lemma NextNodeOk(p: Paths, s: string, a: char, u: string)
    requires s in p.node && Plain(a) && s + [a] !in p.node && NodeOk(p, u)
    ensures NodeOk(AddPath(p, s + [a]), u)
  {
    assert (s + [a])[..|s|] == s;
  }

  /** Linking the next free node under a path adds that path to the trie and changes no answer. */
  lemma LinkAdds(steps: seq<Step>, p: Paths, s: string, a: char)
    requires Trie(steps, p) && s in p.node && Plain(a) && s + [a] !in p.node && |p.path| < |steps|
    ensures 1 <= p.node[s] <= |p.path| && ColumnOf(a) < |steps[p.node[s] - 1].k|
    ensures var t, r := SetLink(steps, p.node[s], ColumnOf(a), |p.path| + 1), AddPath(p, s + [a]);
      Trie(t, r) && Stored(t, r) == Stored(steps, p)
  {
    hide NodeOk, PathOk;
    KnownNode(steps, p, s);
    var t, r := SetLink(steps, p.node[s], ColumnOf(a), |p.path| + 1), AddPath(p, s + [a]);
    NumberedNext(p, s, a);
    forall n | 0 <= n < |r.path| ensures Linked(r.node, r.path[n], t[n]) {
      LinkLinked(steps, p, s, a, n);
    }
    assert Blank(steps[|p.path|]);
    hide Linked, Trie;
    forall u ensures EndOf(t, r, u) == EndOf(steps, p, u) && StdOf(t, r, u) == StdOf(steps, p, u) {
    }
    hide EndOf, StdOf;
    SameStored(steps, p, t, r);
  }

  lemma LinkLinked(steps: seq<Step>, p: Paths, s: string, a: char, n: nat)
    requires Trie(steps, p) && s in p.node && Plain(a) && s + [a] !in p.node && |p.path| < |steps| && n <= |p.path|
    requires 1 <= p.node[s] <= |p.path| && ColumnOf(a) < |steps[p.node[s] - 1].k|
    ensures var t, r := SetLink(steps, p.node[s], ColumnOf(a), |p.path| + 1), AddPath(p, s + [a]);
      Linked(r.node, r.path[n], t[n])
  {
    hide Linked, ParentKnown, Blank;
    if n == |p.path| {
      LeafLinked(p, s + [a], n + 1, steps[n]);
    } else {
      assert Linked(p.node, p.path[n], steps[n]) && PathOk(p, n) && NodeOk(p, s);
      hide Trie;
      if p.path[n] == s {
        ParentLinked(p.node, s, a, |p.path| + 1, steps[n]);
      } else {
        assert (s + [a])[..|s|] == s;
        NewLinked(p.node, p.path[n], s + [a], |p.path| + 1, steps[n]);
      }
    }
  }

  lemma SameLinks(steps: seq<Step>, t: seq<Step>, p: Paths)
    requires Trie(steps, p) && |t| == |steps|
    requires forall n :: 0 <= n < |t| ==> t[n].k == steps[n].k
    requires forall n :: |p.path| <= n < |t| ==> t[n] == steps[n]
    ensures Trie(t, p)
  {
    forall n | 0 <= n < |p.path| ensures Linked(p.node, p.path[n], t[n]) {
      assert Linked(p.node, p.path[n], steps[n]);
    }
    hide Linked, Numbered;
  }

  lemma OtherNode(p: Paths, s: string, u: string)
    requires NodeOk(p, s) && NodeOk(p, u) && s in p.node && u in p.node && s != u
    ensures p.node[s] != p.node[u]
  {
    hide ParentKnown;
  }

  lemma KnownNode(steps: seq<Step>, p: Paths, s: string)
    requires Trie(steps, p) && s in p.node
    ensures 1 <= p.node[s] <= |p.path| <= |steps|
    ensures Linked(p.node, s, steps[p.node[s] - 1]) && |steps[p.node[s] - 1].k| == WIDTH
  {
    hide PathOk, ParentKnown, Child;
    assert NodeOk(p, s);
    assert Linked(p.node, p.path[p.node[s] - 1], steps[p.node[s] - 1]);
  }

  lemma EndPut(steps: seq<Step>, t: seq<Step>, p: Paths, s: string, v: nat)
    requires s in p.node
    requires forall u :: EndOf(t, p, u) == (if u == s then v else EndOf(steps, p, u))
    requires forall u :: StdOf(t, p, u) == StdOf(steps, p, u)
    ensures Stored(t, p) == Stored(steps, p).(exact := Put(Stored(steps, p).exact, s, v))
  {
    hide EndOf, StdOf;
    assert Stored(t, p).exact == Put(Stored(steps, p).exact, s, v);
    assert Stored(t, p).wild == Stored(steps, p).wild;
  }

  lemma StdPut(steps: seq<Step>, t: seq<Step>, p: Paths, s: string, v: nat)
    requires s in p.node
    requires forall u :: StdOf(t, p, u) == (if u == s then v else StdOf(steps, p, u))
    requires forall u :: EndOf(t, p, u) == EndOf(steps, p, u)
    ensures Stored(t, p) == Stored(steps, p).(wild := Put(Stored(steps, p).wild, s, v))
  {
    hide EndOf, StdOf;
    assert Stored(t, p).wild == Put(Stored(steps, p).wild, s, v);
    assert Stored(t, p).exact == Stored(steps, p).exact;
  }

  /** Committing an exact name. */
  lemma EndStores(steps: seq<Step>, p: Paths, s: string, v: nat)
    requires Trie(steps, p) && s in p.node
    ensures 1 <= p.node[s] <= |steps|
    ensures var t := SetEnd(steps, p.node[s], v);
      Trie(t, p) && Stored(t, p) == Stored(steps, p).(exact := Put(Stored(steps, p).exact, s, v))
  {
    hide Linked, NodeOk, PathOk;
    KnownNode(steps, p, s);
    var t := SetEnd(steps, p.node[s], v);
    SameLinks(steps, t, p);
    forall u | u in p.node && u != s ensures p.node[u] != p.node[s] {
      OtherNode(p, s, u);
    }
    hide Trie;
    forall u
      ensures EndOf(t, p, u) == (if u == s then v else EndOf(steps, p, u)) && StdOf(t, p, u) == StdOf(steps, p, u)
    {
    }
    EndPut(steps, t, p, s, v);
  }

  /** Committing a prefix. */
  lemma StdStores(steps: seq<Step>, p: Paths, s: string, v: nat)
    requires Trie(steps, p) && s in p.node
    ensures 1 <= p.node[s] <= |steps|
    ensures var t := SetStd(steps, p.node[s], v);
      Trie(t, p) && Stored(t, p) == Stored(steps, p).(wild := Put(Stored(steps, p).wild, s, v))
  {
    hide Linked, NodeOk, PathOk;
    KnownNode(steps, p, s);
    var t := SetStd(steps, p.node[s], v);
    SameLinks(steps, t, p);
    forall u | u in p.node && u != s ensures p.node[u] != p.node[s] {
      OtherNode(p, s, u);
    }
    hide Trie;
    forall u
      ensures StdOf(t, p, u) == (if u == s then v else StdOf(steps, p, u)) && EndOf(t, p, u) == EndOf(steps, p, u)
    {
    }
    StdPut(steps, t, p, s, v);
  }

  /** A copy with more blank nodes behind it is the same trie. */
  lemma GrowKeeps(steps: seq<Step>, p: Paths, t: seq<Step>)
    requires Trie(steps, p) && |steps| <= |t|
    requires forall n :: 0 <= n < |steps| ==> t[n] == steps[n]
    requires forall n :: |steps| <= n < |t| ==> Blank(t[n])
    ensures Trie(t, p) && Stored(t, p) == Stored(steps, p)
  {
    forall n | 0 <= n < |p.path| ensures Linked(p.node, p.path[n], t[n]) {
      assert Linked(p.node, p.path[n], steps[n]);
    }
    hide Linked, NodeOk, PathOk;
    forall u ensures EndOf(t, p, u) == EndOf(steps, p, u) && StdOf(t, p, u) == StdOf(steps, p, u) {
      if u in p.node {
        KnownNode(steps, p, u);
      }
    }
    hide EndOf, StdOf;
    SameStored(steps, p, t, p);
  }
}
