/**
 The mapper: a trie over an array of nodes, which readers walk while one writer extends it.
 A writer that runs out of nodes works on a larger copy and publishes it in the end.
 */
module Mappers {
  import opened Names
  import opened NameFacts
  import opened Tries

  /** Node numbers and values are unsigned 16-bit integers. */
  const MAX_NODE := 0xffff

  /** The name can be added: what precedes its first '*' is made of storable characters. */
  predicate Addable(name: string) {
    forall i :: 0 <= i < StarAt(name) ==> Storable(name[i])
  }

  class Mapper {
    var abuf: array<Step>      // published
    var buf: array?<Step>      // a larger copy that is not published yet
    var size: nat
    var cap: nat
    var locked: bool
    var freeList: seq<array<Step>>
    ghost var seen: Paths      // the paths of the published nodes
    ghost var paths: Paths     // the paths of the nodes the writer works on

    ghost predicate Sized()
      reads this
    {
      1 <= size <= MAX_NODE && cap == Work().Length && size <= cap
      && (buf == null ==> seen == paths) && buf != abuf && (abuf !in freeList && (buf != null ==> buf !in freeList))
    }

    /** Both tries hold the same names; without a copy there is only one trie. */
    ghost predicate Agree()
      reads this, abuf, buf
    {
      && Trie(abuf[..], seen)
      && Trie(Work()[..], paths)
      && Stored(Work()[..], paths) == Stored(abuf[..], seen)
    }

    ghost predicate Valid()
      reads this, abuf, buf
    {
      Sized() && size == |paths.path| && (!locked ==> buf == null) && Agree()
    }

    /** The nodes the writer works on. */
    function Work(): array<Step>
      reads this
    {
      if buf == null then abuf else buf
    }

    /** The table that readers see. */
    ghost function View(): Names
      reads this, abuf
    {
      Stored(abuf[..], seen)
    }

    constructor ()
      ensures Valid() && !locked && View() == NO_NAMES
      ensures fresh(abuf) && freeList == [] && size == 1
    {
      cap, size := 4, 1;
      abuf := new Step[4](_ => Zeroed());
      buf := null;
      locked := false;
      freeList := [];
      seen, paths := ROOT, ROOT;
      new;
      RootTrie(abuf[..]);
    }

    /** The queue a name resolves to, whether or not somebody is adding one. */
    method Find(name: string) returns (v: nat)
      requires Valid()
      ensures v == Lookup(View(), name)
    {
      hide Linked, NodeOk, PathOk, Lookup;
      var std, nstep, i := 0, 1, 0;
      ghost var n := View();
      StoredKeys(abuf[..], seen);
      while true
        invariant 0 <= i <= |name| && name[..i] in seen.node && nstep == seen.node[name[..i]]
        invariant std == if i == 0 then 0 else LongestPrefix(n.wild, name, i - 1)
        decreases |name| - i
      {
        KnownNode(abuf[..], seen, name[..i]);
        var step := abuf[nstep - 1];
        assert step == abuf[..][nstep - 1];
        if step.std != 0 { std := step.std; }
        assert std == LongestPrefix(n.wild, name, i) by { StdIsPrefix(abuf[..], seen, name, i); }
        if i >= |name| {
          FullLookup(abuf[..], seen, name);
          if step.end != 0 { return step.end; }
          return std;
        }
        if !Storable(name[i]) {
          NoSuchPath(seen, name, i);
          StuckLookup(seen, n, name, i);
          return std;
        }
        var next := step.k[ColumnOf(name[i])];
        NextNode(seen, name, i, step);
        if next == 0 {
          StuckLookup(seen, n, name, i);
          return std;
        }
        nstep := next;
        i := i + 1;
      }
    }

    lemma ViewStarFree()
      requires Valid()
      ensures StarFree(View())
    {
      hide Linked;
      PathsStarFree(seen);
      StoredKeys(abuf[..], seen);
    }

    /** Forgets a name and tells what it stood for. */
    method Del(name: string) returns (v: nat)
      requires Valid() && !locked
      modifies abuf
      ensures Valid() && View() == Register(old(View()), name, 0)
      ensures v == ValueAt(old(View()), EntryOf(name))
    {
      hide Linked, NodeOk, PathOk, Stored;
      var nstep, i := 1, 0;
      assert name[..0] == "";
      while true
        invariant abuf[..] == old(abuf[..])
        invariant 0 <= i <= StarAt(name) && name[..i] in seen.node && nstep == seen.node[name[..i]]
        decreases |name| - i
      {
        KnownNode(abuf[..], seen, name[..i]);
        var step := abuf[nstep - 1];
        assert step == abuf[..][nstep - 1];
        if i >= |name| {
          v := step.end;
          HeldBy(abuf[..], seen, name[..i]);
          EndStores(abuf[..], seen, name[..i], 0);
          abuf[nstep - 1] := step.(end := 0);
          assert abuf[..] == SetEnd(old(abuf[..]), nstep, 0);
          assert name[..i] == name;
          return;
        }
        if name[i] == '*' {
          StarIs(name, i);
          v := step.std;
          HeldBy(abuf[..], seen, name[..i]);
          StdStores(abuf[..], seen, name[..i], 0);
          abuf[nstep - 1] := step.(std := 0);
          assert abuf[..] == SetStd(old(abuf[..]), nstep, 0);
          return;
        }
        NotStarYet(name, i);
        if !Storable(name[i]) {
          NoSuchPath(seen, name, i);
          NothingToForget(abuf[..], seen, name, i);
          return 0;
        }
        var next := step.k[ColumnOf(name[i])];
        NextNode(seen, name, i, step);
        if next == 0 {
          NothingToForget(abuf[..], seen, name, i);
          return 0;
        }
        nstep := next;
        i := i + 1;
      }
    }

    /** Takes the next free node; when there is none, the nodes move to a larger copy first. */
    method Next() returns (n: nat)
      requires Sized() && Agree() && size == |paths.path| && size < MAX_NODE
      modifies this
      ensures n == size == old(size) + 1 && Sized() && Agree()
      ensures seen == old(seen) && paths == old(paths) && abuf == old(abuf) && locked == old(locked)
      ensures freeList == old(freeList)
      ensures buf == old(buf) || fresh(buf)
    {
      hide Trie, Stored;
      size := size + 1;
      if size <= cap { return size; }
      var from, oldCap := Work(), cap;
      cap := if cap >= 512 then cap + 256 else cap * 2;
      var copy := new Step[cap](i requires 0 <= i reads this, from =>
        if i < oldCap && i < from.Length then from[i] else Zeroed());
      var blank := Zeroed();
      assert forall n :: oldCap <= n < cap ==> copy[n] == blank;
      GrowKeeps(from[..], paths, copy[..]);
      buf := copy;
      return size;
    }

    /** Registers a name for a value. A bad character throws and leaves the mapper locked. */
    method Add(name: string, value: nat) returns (ok: bool)
      requires Valid() && !locked && size + |name| <= MAX_NODE
      modifies this, abuf
      ensures Valid()
      ensures ok <==> Addable(name)
      ensures ok ==> !locked && View() == Register(old(View()), name, value)
      ensures !ok ==> locked && View() == old(View())
      ensures abuf == old(abuf) || (fresh(abuf) && freeList == old(freeList) + [old(abuf)])
      ensures abuf == old(abuf) ==> freeList == old(freeList)
    {
      hide Linked, NodeOk, PathOk, Stored;
      locked := true;
      var nstep, i := 1, 0;
      assert name[..0] == "";
      while true
        invariant 0 <= i <= StarAt(name) && Valid() && locked && View() == old(View())
        invariant forall j :: 0 <= j < i ==> Storable(name[j])
        invariant name[..i] in paths.node && nstep == paths.node[name[..i]]
        invariant size + |name| - i <= MAX_NODE
        invariant abuf == old(abuf) && freeList == old(freeList)
        invariant buf == null || fresh(buf)
        decreases |name| - i
      {
        if i >= |name| {
          Commit(nstep, name[..i], value, false);
          assert name[..i] == name;
          break;
        }
        if name[i] == '*' {
          StarIs(name, i);
          Commit(nstep, name[..i], value, true);
          break;
        }
        NotStarYet(name, i);
        if !Storable(name[i]) { return false; }
        KnownNode(Work()[..], paths, name[..i]);
        var step := Work()[nstep - 1];
        assert step == Work()[..][nstep - 1];
        var next := step.k[ColumnOf(name[i])];
        NextNode(paths, name, i, step);
        assert name[..i] + [name[i]] == name[..i + 1];
        if next == 0 {
          next := Extend(nstep, name[..i], name[i]);
        }
        nstep := next;
        i := i + 1;
      }
      Publish();
      ok := true;
    }

    /** The exchange, after which readers find the copy. */
    method Publish()
      requires Sized() && size == |paths.path| && Trie(Work()[..], paths)
      modifies this
      ensures Valid() && !locked && View() == old(Stored(Work()[..], paths))
      ensures abuf == old(Work())
      ensures freeList == old(freeList) + if old(buf) == null then [] else [old(abuf)]
    {
      hide Trie, Stored;
      if buf != null {
        freeList := freeList + [abuf];
        abuf, buf, seen := buf, null, paths;
      }
      locked := false;
    }

    /** Links a new node under node `at`, the node of path s. */
    method Extend(at: nat, s: string, a: char) returns (next: nat)
      requires Valid() && locked && size < MAX_NODE
      requires s in paths.node && at == paths.node[s] && Plain(a) && s + [a] !in paths.node
      modifies this, Work()
      ensures Valid() && locked && View() == old(View())
      ensures size == old(size) + 1 && abuf == old(abuf) && freeList == old(freeList)
      ensures s + [a] in paths.node && next == paths.node[s + [a]]
      ensures buf == old(buf) || fresh(buf)
    {
      hide Linked, NodeOk, PathOk, Stored;
      next := Next();
      var w := Work();
      ghost var was := w[..];
      LinkAdds(was, paths, s, a);
      w[at - 1] := w[at - 1].(k := w[at - 1].k[ColumnOf(a) := next]);
      assert w[..] == SetLink(was, at, ColumnOf(a), next);
      paths := AddPath(paths, s + [a]);
      if buf == null {
        seen := paths;
      }
    }

    /** The last write of an addition. */
    method Commit(at: nat, s: string, value: nat, wild: bool)
      requires Valid() && locked && s in paths.node && at == paths.node[s]
      modifies Work()
      ensures Sized() && size == |paths.path|
      ensures Trie(abuf[..], seen) && Trie(Work()[..], paths)
      ensures Stored(Work()[..], paths) ==
              if wild then old(View()).(wild := Put(old(View()).wild, s, value))
              else old(View()).(exact := Put(old(View()).exact, s, value))
      ensures buf != null ==> View() == old(View())
    {
      hide Linked, NodeOk, PathOk, Stored;
      var w := Work();
      ghost var was := w[..];
      KnownNode(was, paths, s);
      if wild {
        StdStores(was, paths, s, value);
        w[at - 1] := w[at - 1].(std := value);
        assert w[..] == SetStd(was, at, value);
      } else {
        EndStores(was, paths, s, value);
        w[at - 1] := w[at - 1].(end := value);
        assert w[..] == SetEnd(was, at, value);
      }
    }
  }

  // What a walk knows at position i

  lemma RootTrie(steps: seq<Step>)
    requires |steps| >= 1 && forall n :: 0 <= n < |steps| ==> Blank(steps[n])
    ensures Trie(steps, ROOT) && Stored(steps, ROOT) == NO_NAMES
  {
    assert Linked(ROOT.node, "", steps[0]) by {
      forall c | 0 <= c < WIDTH ensures steps[0].k[c] == Child(ROOT.node, "", c) {
        assert "" + [CharAt(c)] != "";
      }
    }
    assert NodeOk(ROOT, "") && PathOk(ROOT, 0);
  }

  lemma ParentOf(p: Paths, s: string)
    requires Numbered(p) && s in p.node && s != ""
    ensures Plain(s[|s| - 1]) && s[..|s| - 1] in p.node
  {
    hide PathOk;
    assert NodeOk(p, s);
  }

  lemma {:induction false} PathPlain(p: Paths, s: string)
    requires Numbered(p) && s in p.node
    ensures '*' !in s
  {
    hide Numbered;
    if s != "" {
      ParentOf(p, s);
      PathPlain(p, s[..|s| - 1]);
      assert s == s[..|s| - 1] + [s[|s| - 1]];
    }
  }

  lemma PathsStarFree(p: Paths)
    requires Numbered(p)
    ensures forall s :: s in p.node ==> '*' !in s
  {
    hide Numbered;
    forall s | s in p.node ensures '*' !in s {
      PathPlain(p, s);
    }
  }

  lemma StoredKeys(steps: seq<Step>, p: Paths)
    ensures Stored(steps, p).exact.Keys <= p.node.Keys && Stored(steps, p).wild.Keys <= p.node.Keys
  {
  }

  lemma HeldBy(steps: seq<Step>, p: Paths, s: string)
    requires s in p.node && 1 <= p.node[s] <= |steps|
    ensures var n := Stored(steps, p);
      && steps[p.node[s] - 1].end == (if s in n.exact then n.exact[s] else 0)
      && steps[p.node[s] - 1].std == (if s in n.wild then n.wild[s] else 0)
  {
  }

  lemma StdIsPrefix(steps: seq<Step>, p: Paths, name: string, i: nat)
    requires Trie(steps, p) && i <= |name| && name[..i] in p.node && 1 <= p.node[name[..i]] <= |steps|
    ensures var wild, std := Stored(steps, p).wild, steps[p.node[name[..i]] - 1].std;
      LongestPrefix(wild, name, i) == if std != 0 then std else if i == 0 then 0 else LongestPrefix(wild, name, i - 1)
  {
    hide Trie;
    assert StdOf(steps, p, name[..i]) == steps[p.node[name[..i]] - 1].std;
  }

  lemma FullLookup(steps: seq<Step>, p: Paths, name: string)
    requires Trie(steps, p) && name[..|name|] in p.node && 1 <= p.node[name[..|name|]] <= |steps|
    ensures var n, end := Stored(steps, p), steps[p.node[name[..|name|]] - 1].end;
      Lookup(n, name) == if end != 0 then end else LongestPrefix(n.wild, name, |name|)
  {
    hide Trie, LongestPrefix;
    assert name[..|name|] == name;
    assert EndOf(steps, p, name) == steps[p.node[name] - 1].end;
  }

  /** No path goes through a character that cannot be stored, nor through a star. */
  lemma NoSuchPath(p: Paths, name: string, i: nat)
    requires Numbered(p) && i < |name| && !Plain(name[i])
    ensures name[..i + 1] !in p.node
  {
    assert name[..i + 1] in p.node ==> NodeOk(p, name[..i + 1]);
  }

  lemma LinkAt(node: map<string, nat>, s: string, step: Step, c: nat)
    requires Linked(node, s, step) && c < WIDTH
    ensures |step.k| == WIDTH && step.k[c] == Child(node, s, c)
  {
  }

  lemma NodeNumber(p: Paths, s: string)
    requires Numbered(p) && s in p.node
    ensures p.node[s] >= 1
  {
    hide PathOk, ParentKnown;
    assert NodeOk(p, s);
  }

  /** Following a link goes to the next path if the trie has it, and nowhere otherwise. */
  lemma NextNode(p: Paths, name: string, i: nat, step: Step)
    requires Numbered(p) && i < |name| && Linked(p.node, name[..i], step) && Storable(name[i])
    ensures |step.k| == WIDTH
    ensures var next := step.k[ColumnOf(name[i])];
      if name[..i + 1] in p.node then next == p.node[name[..i + 1]] && next != 0 else next == 0
  {
    hide Linked, Numbered;
    assert name[..i + 1] == name[..i] + [CharAt(ColumnOf(name[i]))];
    LinkAt(p.node, name[..i], step, ColumnOf(name[i]));
    if name[..i + 1] in p.node {
      NodeNumber(p, name[..i + 1]);
    }
  }

  /** Where the loops of add and del stand with respect to the first star. */
  lemma StarIs(name: string, i: nat)
    requires i <= StarAt(name) && i < |name| && name[i] == '*'
    ensures StarAt(name) == i
  {
    assert forall j :: 0 <= j < StarAt(name) ==> name[..StarAt(name)][j] == name[j];
  }

  lemma NotStarYet(name: string, i: nat)
    requires i <= StarAt(name) && i < |name| && name[i] != '*'
    ensures i < StarAt(name)
  {
  }

  lemma NothingToForget(steps: seq<Step>, p: Paths, name: string, i: nat)
    requires Numbered(p) && i < StarAt(name) && name[..i + 1] !in p.node
    ensures var n := Stored(steps, p); ValueAt(n, EntryOf(name)) == 0 && Register(n, name, 0) == n
  {
    hide NodeOk, PathOk;
    var s := name[..StarAt(name)];
    assert s[..|s|] == s && s[..i + 1] == name[..i + 1];
    assert s !in p.node by {
      if s in p.node {
        PrefixKnown(p, s, i + 1, |s|);
      }
    }
    var n := Stored(steps, p);
    assert n.wild - {s} == n.wild && n.exact - {s} == n.exact;
    if !IsWild(name) {
      assert s == name;
    }
  }
}
