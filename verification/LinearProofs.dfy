/** Every walk answers with the table as it stood at some instant of the walk. */
module LinearProofs {
  import opened Names
  import opened NameFacts
  import opened Tries
  import opened Mappers
  import opened Linearizable

  predicate BufOk(b: Buf) {
    |b.steps| > 0 && Trie(b.steps, b.paths)
  }

  predicate At(b: Buf, s: string, at: nat) {
    s in b.paths.node && b.paths.node[s] == at
  }

  /** The names of a are among those of b. */
  predicate Within(a: Names, b: Names) {
    a.exact.Keys <= b.exact.Keys && a.wild.Keys <= b.wild.Keys
  }

  // The reader

  /** What the prefixes of the first n lengths stand for. */
  function SeenSoFar(a: Names, name: string, n: nat): nat
    requires n <= |name| + 1
  {
    if n == 0 then 0 else LongestPrefix(a.wild, name, n - 1)
  }

  function Tested(r: Reader): nat
    requires r.Walking?
  {
    if r.phase.TestStd? || r.phase.TakeStd? then r.i else r.i + 1
  }

  /** The table a explains the walk so far, and nothing it holds has since disappeared from the buffer. */
  predicate Explains(a: Names, b: Buf, r: Reader)
    requires r.Walking? && r.i <= |r.name|
  {
    Within(a, Held(b)) && r.std == SeenSoFar(a, r.name, Tested(r))
  }

  ghost predicate WalkOk(b: Buf, r: Reader, past: seq<Names>)
    requires r.Walking?
  {
    && r.i <= |r.name| && At(b, r.name[..r.i], r.at)
    && Held(b) in past
    && (exists a :: a in past && Explains(a, b, r))
    && (r.phase.TakeStd? ==> r.name[..r.i] in Held(b).wild)
    && (r.phase.TakeEnd? ==> r.i == |r.name| && r.name in Held(b).exact)
  }

  ghost predicate Answered(name: string, v: nat, past: seq<Names>) {
    exists a :: a in past && Lookup(a, name) == v
  }

  ghost predicate ReaderOk(s: System) {
    match s.reader
    case Resting => true
    case Walking(buf, _, _, _, _, _) => buf < |s.bufs| && WalkOk(s.bufs[buf], s.reader, s.past)
    case Done(name, v) => Answered(name, v, s.past)
  }

  lemma WalkStays(b: Buf, r: Reader)
    requires BufOk(b) && r.Walking? && r.i <= |r.name| && At(b, r.name[..r.i], r.at)
    ensures 1 <= r.at <= |b.paths.path| <= |b.steps| && |b.steps[r.at - 1].k| == WIDTH
  {
    hide Trie, Linked;
    KnownNode(b.steps, b.paths, r.name[..r.i]);
  }

  lemma NodeHolds(b: Buf, s: string, at: nat)
    requires BufOk(b) && At(b, s, at)
    ensures 1 <= at <= |b.steps|
    ensures if b.steps[at - 1].end != 0
            then s in Held(b).exact && Held(b).exact[s] == b.steps[at - 1].end
            else s !in Held(b).exact
    ensures if b.steps[at - 1].std != 0
            then s in Held(b).wild && Held(b).wild[s] == b.steps[at - 1].std
            else s !in Held(b).wild
  {
    hide Linked, NodeOk, PathOk, Stored;
    KnownNode(b.steps, b.paths, s);
    hide Trie;
    HeldBy(b.steps, b.paths, s);
  }

  /** Reads of `std`. */
  lemma ReadStdOk(b: Buf, r: Reader, past: seq<Names>)
    requires BufOk(b) && r.Walking? && WalkOk(b, r, past) && (r.phase.TestStd? || r.phase.TakeStd?)
    requires 1 <= r.at <= |b.steps| && |b.steps[r.at - 1].k| == WIDTH
    ensures WalkOk(b, ReadNext(r, b.steps[r.at - 1]), past)
  {
    hide BufOk, Held;
    NodeHolds(b, r.name[..r.i], r.at);
    var step := b.steps[r.at - 1];
    var t := ReadNext(r, step);
    var a :| a in past && Explains(a, b, r);
    if r.phase.TestStd? {
      assert Explains(a, b, t);
    } else {
      assert Explains(Held(b), b, t);
    }
  }

  /** The reads of `end` and of links. */
  lemma ReadOnOk(b: Buf, r: Reader, past: seq<Names>)
    requires BufOk(b) && r.Walking? && WalkOk(b, r, past) && (r.phase.Follow? || r.phase.TakeEnd?)
    requires 1 <= r.at <= |b.steps| && |b.steps[r.at - 1].k| == WIDTH
    ensures var t := ReadNext(r, b.steps[r.at - 1]);
      if t.Walking? then t.buf == r.buf && WalkOk(b, t, past) else t.Done? && Answered(t.name, t.v, past)
  {
    if r.phase.TakeEnd? {
      TakesEnd(b, r, past);
    } else if r.i >= |r.name| {
      TestsEnd(b, r, past);
    } else {
      FollowsLink(b, r, past);
    }
  }

  lemma TestsEnd(b: Buf, r: Reader, past: seq<Names>)
    requires BufOk(b) && r.Walking? && WalkOk(b, r, past) && r.phase.Follow? && r.i == |r.name|
    requires 1 <= r.at <= |b.steps|
    ensures if b.steps[r.at - 1].end == 0 then Answered(r.name, r.std, past) else WalkOk(b, r.(phase := TakeEnd), past)
  {
    hide BufOk, Held, LongestPrefix;
    assert r.name[..r.i] == r.name;
    NodeHolds(b, r.name, r.at);
    var a :| a in past && Explains(a, b, r);
    if b.steps[r.at - 1].end == 0 {
      EndsWithPrefix(a, r);
    } else {
      assert Explains(a, b, r.(phase := TakeEnd));
    }
  }

  lemma FollowsLink(b: Buf, r: Reader, past: seq<Names>)
    requires BufOk(b) && r.Walking? && WalkOk(b, r, past) && r.phase.Follow? && r.i < |r.name|
    requires 1 <= r.at <= |b.steps| && |b.steps[r.at - 1].k| == WIDTH
    ensures var t := ReadNext(r, b.steps[r.at - 1]);
      if t.Walking? then t.buf == r.buf && WalkOk(b, t, past) else t.Done? && Answered(t.name, t.v, past)
  {
    hide Linked, Held, Lookup, LongestPrefix, NodeOk, PathOk;
    KnownNode(b.steps, b.paths, r.name[..r.i]);
    hide Trie, Numbered;
    var a :| a in past && Explains(a, b, r);
    WithinKeys(a, b);
    var step := b.steps[r.at - 1];
    assert Numbered(b.paths) by { NumberedPaths(b); }
    if !Storable(r.name[r.i]) {
      NoSuchPath(b.paths, r.name, r.i);
      StuckLookup(b.paths, a, r.name, r.i);
    } else {
      NextNode(b.paths, r.name, r.i, step);
      if step.k[ColumnOf(r.name[r.i])] == 0 {
        StuckLookup(b.paths, a, r.name, r.i);
      } else {
        assert Explains(a, b, ReadNext(r, step));
      }
    }
  }

  lemma NumberedPaths(b: Buf)
    requires BufOk(b)
    ensures Numbered(b.paths)
  {
    hide Linked, Numbered;
  }

  lemma WithinKeys(a: Names, b: Buf)
    requires Within(a, Held(b))
    ensures a.exact.Keys <= b.paths.node.Keys && a.wild.Keys <= b.paths.node.Keys
  {
    StoredKeys(b.steps, b.paths);
  }

  lemma TakesEnd(b: Buf, r: Reader, past: seq<Names>)
    requires BufOk(b) && r.Walking? && WalkOk(b, r, past) && r.phase.TakeEnd? && r.i == |r.name|
    requires 1 <= r.at <= |b.steps|
    ensures Answered(r.name, b.steps[r.at - 1].end, past)
  {
    hide BufOk, Held;
    assert r.name[..r.i] == r.name;
    NodeHolds(b, r.name, r.at);
    assert Lookup(Held(b), r.name) == b.steps[r.at - 1].end;
  }

  lemma EndsWithPrefix(a: Names, r: Reader)
    requires r.Walking? && r.i == |r.name| && r.phase.Follow? && r.name !in a.exact
    requires r.std == SeenSoFar(a, r.name, Tested(r))
    ensures Lookup(a, r.name) == r.std
  {
  }

  // The writer

  /** What is true between two turns of the loop of add. */
  predicate AddingOk(work: Buf, name: string, i: nat, at: nat) {
    && i <= StarAt(name) && At(work, name[..i], at)
    && (forall j :: 0 <= j < i ==> Storable(name[j]))
  }

  predicate WriterOk(s: System)
    requires s.bufs != []
  {
    match s.writer
    case Idle => s.copy.NoCopy?
    case Adding(base, name, value, i, at) =>
      value != 0 && AddingOk(Work(s), name, i, at) && Held(Work(s)) == base && Visible(s) == base
    case Written(base, name, value) =>
      && value != 0 && Addable(name) && Held(Work(s)) == Register(base, name, value)
      && (s.copy.Copy? ==> Visible(s) == base)
    case Thrown(base) => Visible(s) == base
  }

  predicate BufsOk(s: System) {
    && s.bufs != []
    && (forall n :: 0 <= n < |s.bufs| ==> BufOk(s.bufs[n]))
    && (s.copy.Copy? ==> BufOk(s.copy.buf))
  }

  ghost predicate Inv(s: System) {
    BufsOk(s) && WriterOk(s) && ReaderOk(s)
  }

  /** Nothing a reader can have seen in b is taken back in c. */
  predicate Extends(b: Buf, c: Buf) {
    (forall s :: s in b.paths.node ==> At(c, s, b.paths.node[s])) && Within(Held(b), Held(c))
  }

  lemma WalkExtends(b: Buf, c: Buf, r: Reader, past: seq<Names>, later: seq<Names>)
    requires r.Walking? && WalkOk(b, r, past) && Extends(b, c) && past <= later && Held(c) in later
    ensures WalkOk(c, r, later)
  {
    hide Held;
    var a :| a in past && Explains(a, b, r);
    assert a in later && Explains(a, c, r);
  }

  lemma AnsweredLater(name: string, v: nat, past: seq<Names>, later: seq<Names>)
    requires Answered(name, v, past) && past <= later
    ensures Answered(name, v, later)
  {
    var a :| a in past && Lookup(a, name) == v;
    assert a in later;
  }

  /** How the writer changes what readers can see: earlier buffers stay, the published one only gains names. */
  ghost predicate Gains(s: System, t: System) {
    && 0 < |s.bufs| <= |t.bufs| && t.reader == s.reader
    && (forall n :: 0 <= n < |s.bufs| ==> Extends(s.bufs[n], t.bufs[n]))
    && (forall n :: 0 <= n < |s.bufs| ==> t.bufs[n] == s.bufs[n] || Held(t.bufs[n]) == Visible(t))
  }

  /** The reader does not mind. */
  lemma GainsReader(s: System, t: System)
    requires ReaderOk(s) && Gains(s, t)
    requires t.past == s.past + [Visible(t)] || (t.past == s.past && !s.reader.Walking?)
    ensures ReaderOk(t)
  {
    hide Held, Extends, WalkOk, Answered;
    match s.reader
    case Resting =>
    case Walking(buf, _, _, _, _, _) =>
      var b, c := s.bufs[buf], t.bufs[buf];
      HeldInPast(b, s.reader, s.past);
      assert Held(c) in t.past by {
        if c != b {
          assert t.past[|s.past|] == Held(c);
        }
      }
      WalkExtends(b, c, s.reader, s.past, t.past);
    case Done(name, v) => AnsweredLater(name, v, s.past, t.past);
  }

  lemma HeldInPast(b: Buf, r: Reader, past: seq<Names>)
    requires r.Walking? && WalkOk(b, r, past)
    ensures Held(b) in past
  {
  }

  lemma ExtendsRefl(b: Buf)
    ensures Extends(b, b)
  {
  }

  lemma GainsRefl(s: System, t: System)
    requires s.bufs != [] && t.bufs == s.bufs && t.reader == s.reader
    ensures Gains(s, t)
  {
    hide Held, Extends;
    forall n | 0 <= n < |s.bufs| ensures Extends(s.bufs[n], t.bufs[n]) {
      ExtendsRefl(s.bufs[n]);
    }
  }

  /** A write to the nodes the writer works on. */
  lemma SetWorkGains(s: System, b: Buf)
    requires BufsOk(s) && BufOk(b) && Extends(Work(s), b)
    ensures BufsOk(SetWork(s, b)) && Gains(s, SetWork(s, b)) && Work(SetWork(s, b)) == b
    ensures Visible(SetWork(s, b)) == if s.copy.Copy? then Visible(s) else Held(b)
  {
    hide Held, Extends, BufOk;
    var t := SetWork(s, b);
    forall n | 0 <= n < |s.bufs| ensures Extends(s.bufs[n], t.bufs[n]) {
      ExtendsRefl(s.bufs[n]);
    }
  }

  lemma WorkOk(s: System)
    requires BufsOk(s)
    ensures BufOk(Work(s))
  {
    hide BufOk;
  }

  lemma GrownOk(b: Buf)
    requires BufOk(b)
    ensures BufOk(Grown(b)) && Extends(b, Grown(b)) && Held(Grown(b)) == Held(b) && |Grown(b).steps| > |b.steps|
  {
    hide Trie, Stored;
    GrowKeeps(b.steps, b.paths, Grown(b).steps);
  }

  lemma LinkNewOk(b: Buf, s: string, a: char, at: nat)
    requires BufOk(b) && At(b, s, at) && Plain(a) && s + [a] !in b.paths.node && |b.paths.path| < |b.steps|
    ensures 1 <= at <= |b.steps| && |b.steps[at - 1].k| == WIDTH
    ensures var c := LinkNew(b, at, s, a);
      BufOk(c) && Extends(b, c) && Held(c) == Held(b) && At(c, s + [a], |b.paths.path| + 1)
  {
    hide Linked, NodeOk, PathOk, Stored;
    KnownNode(b.steps, b.paths, s);
    LinkAdds(b.steps, b.paths, s, a);
    hide Trie;
  }

  lemma FinalOk(b: Buf, s: string, at: nat, value: nat, wild: bool)
    requires BufOk(b) && At(b, s, at) && value != 0
    ensures 1 <= at <= |b.steps|
    ensures var c := Final(b, at, value, wild);
      && BufOk(c) && Extends(b, c)
      && Held(c) == (if wild then Held(b).(wild := Put(Held(b).wild, s, value))
                     else Held(b).(exact := Put(Held(b).exact, s, value)))
  {
    hide Linked, NodeOk, PathOk, Stored;
    KnownNode(b.steps, b.paths, s);
    if wild {
      StdStores(b.steps, b.paths, s, value);
    } else {
      EndStores(b.steps, b.paths, s, value);
    }
    hide Trie;
  }

  lemma StepsReady(s: System)
    requires BufsOk(s) && WriterOk(s) && s.writer.Adding?
    ensures CanStep(s)
  {
    WorkOk(s);
    hide Linked, NodeOk, PathOk, Stored, Trie;
    var b, w := Work(s), s.writer;
    KnownNode(b.steps, b.paths, w.name[..w.i]);
  }

  /** The last write of an addition. */
  lemma FinalTurn(s: System)
    requires BufsOk(s) && WriterOk(s) && CanStep(s)
    requires var w := s.writer; w.i >= |w.name| || w.name[w.i] == '*'
    ensures var t := AddTurn(s); BufsOk(t) && WriterOk(t) && Gains(s, t)
  {
    var b, w := Work(s), s.writer;
    WorkOk(s);
    var wild := w.i < |w.name|;
    var c := Final(b, w.at, w.value, wild);
    assert AddTurn(s) == SetWork(s, c).(writer := Written(w.base, w.name, w.value));
    FinalRegisters(w.base, w.name, w.i, w.value);
    assert Addable(w.name);
    hide Held, BufOk, Extends, Gains, Final, SetWork, Register, Put, Addable, StarAt, AddTurn;
    FinalOk(b, w.name[..w.i], w.at, w.value, wild);
    SetWorkGains(s, c);
    var t := SetWork(s, c);
    SetWorkSame(s, c);
    SameGains(s, t, AddTurn(s));
    WrittenOk(s, t, AddTurn(s));
  }

  lemma SetWorkSame(s: System, b: Buf)
    requires s.bufs != []
    ensures SetWork(s, b).writer == s.writer && SetWork(s, b).reader == s.reader
    ensures SetWork(s, b).copy.Copy? == s.copy.Copy?
  {
  }

  lemma WrittenOk(s: System, t: System, u: System)
    requires BufsOk(t) && s.writer.Adding? && s.bufs != [] && Visible(s) == s.writer.base && s.writer.value != 0
    requires u == t.(writer := Written(s.writer.base, s.writer.name, s.writer.value))
    requires Held(Work(t)) == Register(s.writer.base, s.writer.name, s.writer.value) && Addable(s.writer.name)
    requires t.copy.Copy? ==> Visible(t) == Visible(s)
    ensures BufsOk(u) && WriterOk(u)
  {
    hide Held, BufOk, Register, Addable;
    assert Work(u) == Work(t) && Visible(u) == Visible(t);
  }

  lemma FinalRegisters(base: Names, name: string, i: nat, value: nat)
    requires i <= StarAt(name) && (i >= |name| || name[i] == '*')
    ensures Register(base, name, value)
         == if i < |name| then base.(wild := Put(base.wild, name[..i], value))
            else base.(exact := Put(base.exact, name[..i], value))
    ensures StarAt(name) == i
  {
    if i < |name| {
      StarIs(name, i);
    } else {
      assert name[..i] == name;
    }
  }

  lemma SameGains(s: System, t: System, u: System)
    requires Gains(s, t) && u.bufs == t.bufs && u.reader == t.reader
    ensures Gains(s, u)
  {
    hide Held, Extends;
  }

  /** A turn that finds or makes the next node. */
  lemma LinkTurn(s: System)
    requires BufsOk(s) && WriterOk(s) && CanStep(s)
    requires var w := s.writer; w.i < |w.name| && w.name[w.i] != '*' && Storable(w.name[w.i])
    ensures var t := AddTurn(s); BufsOk(t) && WriterOk(t) && Gains(s, t)
  {
    hide Held, Extends, Gains, BufOk, StarAt;
    var b, w := Work(s), s.writer;
    WorkOk(s);
    NotStarYet(w.name, w.i);
    NextOf(b, w.name, w.i, w.at);
    if b.steps[w.at - 1].k[ColumnOf(w.name[w.i])] != 0 {
      GainsRefl(s, AddTurn(s));
    } else {
      LinkNewTurn(s);
    }
  }

  predicate NeedsLink(s: System)
    requires CanStep(s)
  {
    var w := s.writer;
    && w.i < StarAt(w.name) && w.name[w.i] != '*' && Storable(w.name[w.i])
    && Work(s).steps[w.at - 1].k[ColumnOf(w.name[w.i])] == 0
    && w.name[..w.i + 1] !in Work(s).paths.node
  }

  function Linking(s: System): Buf
    requires CanStep(s) && NeedsLink(s)
    requires s.writer.at <= |Work(WithRoom(s)).steps| && |Work(WithRoom(s)).steps[s.writer.at - 1].k| == WIDTH
  {
    LinkNew(Work(WithRoom(s)), s.writer.at, s.writer.name[..s.writer.i], s.writer.name[s.writer.i])
  }

  lemma LinkNewTurn(s: System)
    requires BufsOk(s) && WriterOk(s) && CanStep(s) && NeedsLink(s)
    ensures var t := AddTurn(s); BufsOk(t) && WriterOk(t) && Gains(s, t)
  {
    hide Held, Extends, Gains, BufOk, StarAt, AddTurn, WithRoom, SetWork;
    var w, t := s.writer, WithRoom(s);
    WithRoomOk(s);
    assert w.name[..w.i + 1] == w.name[..w.i] + [w.name[w.i]];
    WorkOk(t);
    LinkNewOk(Work(t), w.name[..w.i], w.name[w.i], w.at);
    var d := Linking(s);
    AddTurnLinks(s);
    hide Linking;
    SetWorkGains(t, d);
    SetWorkSame(t, d);
    GainsTrans(s, t, SetWork(t, d), AddTurn(s));
    SameWork(SetWork(t, d), AddTurn(s));
  }

  lemma AddTurnLinks(s: System)
    requires CanStep(s) && NeedsLink(s)
    requires s.writer.at <= |Work(WithRoom(s)).steps| && |Work(WithRoom(s)).steps[s.writer.at - 1].k| == WIDTH
    ensures var w := s.writer;
      AddTurn(s) == SetWork(WithRoom(s), Linking(s)).(writer := w.(i := w.i + 1, at := |Work(s).paths.path| + 1))
  {
    hide SetWork, WithRoom, LinkNew;
  }

  lemma SameWork(t: System, u: System)
    requires BufsOk(t) && u.bufs == t.bufs && u.copy == t.copy
    ensures BufsOk(u) && Work(u) == Work(t) && Visible(u) == Visible(t)
  {
    hide Held, BufOk;
  }

  lemma NextOf(b: Buf, name: string, i: nat, at: nat)
    requires BufOk(b) && i < |name| && At(b, name[..i], at) && Storable(name[i])
    requires 1 <= at <= |b.steps| && |b.steps[at - 1].k| == WIDTH
    ensures var next := b.steps[at - 1].k[ColumnOf(name[i])];
      if next != 0 then At(b, name[..i + 1], next) else name[..i + 1] !in b.paths.node
  {
    hide Linked, NodeOk, PathOk;
    KnownNode(b.steps, b.paths, name[..i]);
    NextNode(b.paths, name, i, b.steps[at - 1]);
  }

  lemma WithRoomOk(s: System)
    requires BufsOk(s)
    ensures var t := WithRoom(s);
      && BufsOk(t) && t.bufs == s.bufs && t.reader == s.reader && t.writer == s.writer
      && |Work(t).paths.path| < |Work(t).steps| && Work(t).paths == Work(s).paths && Held(Work(t)) == Held(Work(s))
  {
    WorkOk(s);
    hide Held, Extends;
    GrownOk(Work(s));
    RoomBelow(Work(s));
    hide BufOk;
  }

  lemma RoomBelow(b: Buf)
    requires BufOk(b)
    ensures |b.paths.path| <= |b.steps|
  {
    hide Numbered, Linked;
  }

  lemma GainsTrans(s: System, t: System, u: System, v: System)
    requires t.bufs == s.bufs && t.reader == s.reader && Gains(t, u) && v.bufs == u.bufs && v.reader == u.reader
    ensures Gains(s, v)
  {
    hide Held, Extends;
  }

  lemma PublishOk(s: System)
    requires BufsOk(s) && WriterOk(s) && s.writer.Written?
    ensures var t := Publish(s); BufsOk(t) && WriterOk(t) && Gains(s, t)
  {
    hide Held, BufOk, Extends;
    var t := Publish(s);
    forall n | 0 <= n < |s.bufs| ensures Extends(s.bufs[n], t.bufs[n]) {
      ExtendsRefl(s.bufs[n]);
    }
  }

  // All events

  lemma WriterActs(s: System, e: Event)
    requires Inv(s) && Enabled(s, e) && (e.AddStarts? || e.AddStep? || e.Exchange?)
    ensures var t := Act(s, e); BufsOk(t) && WriterOk(t) && Gains(s, t)
  {
    hide ReaderOk, Gains, BufOk, Held;
    match e
    case AddStarts(name, value) =>
      RootKnown(Work(s)) by { WorkOk(s); }
      GainsRefl(s, Act(s, e));
    case AddStep =>
      var w := s.writer;
      if w.i >= |w.name| || w.name[w.i] == '*' {
        FinalTurn(s);
      } else if Storable(w.name[w.i]) {
        LinkTurn(s);
      } else {
        GainsRefl(s, Act(s, e));
      }
    case Exchange => PublishOk(s);
  }

  lemma RootKnown(b: Buf)
    requires BufOk(b)
    ensures forall name: string :: At(b, name[..0], 1)
  {
    hide Linked;
    forall name: string ensures name[..0] == "" {
    }
  }

  lemma ReaderActs(s: System, e: Event)
    requires Inv(s) && Enabled(s, e) && (e.FindStarts? || e.Read?)
    ensures Inv(Next(s, e))
  {
    hide BufsOk, ReaderOk, WriterOk, Visible;
    var t := Next(s, e);
    SomeBuf(s);
    SameWriter(s, t);
    if e.FindStarts? {
      StartActs(s, e.name);
    } else {
      ReadActs(s);
    }
  }

  lemma SomeBuf(s: System)
    requires BufsOk(s)
    ensures s.bufs != []
  {
  }

  lemma StartActs(s: System, name: string)
    requires BufsOk(s) && !s.reader.Walking?
    ensures ReaderOk(Next(s, FindStarts(name)))
  {
    hide BufOk, WalkOk, Held;
    StartOk(s, name);
    assert Next(s, FindStarts(name)).past == [Visible(s)];
  }

  lemma ReadActs(s: System)
    requires BufsOk(s) && ReaderOk(s) && CanRead(s)
    ensures ReaderOk(Next(s, Read))
  {
    hide BufOk, WalkOk, Answered, Held, ReadNext;
    var t, r, b := Next(s, Read), s.reader, s.bufs[s.reader.buf];
    if r.phase.TestStd? || r.phase.TakeStd? {
      ReadStdOk(b, r, s.past);
    } else {
      ReadOnOk(b, r, s.past);
    }
    SameBuf(r, b);
    if t.reader.Walking? {
      SameWalk(b, t.reader, s.past, t.past);
    } else {
      AnsweredLater(t.reader.name, t.reader.v, s.past, t.past);
    }
  }

  lemma SameBuf(r: Reader, b: Buf)
    requires r.Walking? && 1 <= r.at <= |b.steps| && |b.steps[r.at - 1].k| == WIDTH
    ensures var t := ReadNext(r, b.steps[r.at - 1]);
      if t.Walking? then t.buf == r.buf else t.Done? && (r.phase.Follow? || r.phase.TakeEnd?)
  {
  }

  lemma SameWalk(b: Buf, r: Reader, past: seq<Names>, later: seq<Names>)
    requires r.Walking? && WalkOk(b, r, past) && past <= later
    ensures WalkOk(b, r, later)
  {
    HeldInPast(b, r, past);
    ExtendsRefl(b);
    hide Held, WalkOk, Extends;
    WalkExtends(b, b, r, past, later);
  }

  lemma StartOk(s: System, name: string)
    requires BufsOk(s)
    ensures WalkOk(Published(s), Walking(|s.bufs| - 1, name, 0, 1, 0, TestStd), [Visible(s)])
  {
    var b, r := Published(s), Walking(|s.bufs| - 1, name, 0, 1, 0, TestStd);
    RootKnown(b);
    hide BufOk, Held;
    assert Explains(Visible(s), b, r);
  }

  /** Every event keeps the invariant. */
  lemma NextKeeps(s: System, e: Event)
    requires Inv(s) && Enabled(s, e)
    ensures Inv(Next(s, e))
  {
    hide BufsOk, Gains, Held, WriterOk, ReaderOk, Act, Enabled, Visible, Next;
    if e.FindStarts? || e.Read? {
      ReaderActs(s, e);
    } else {
      WriterActs(s, e);
      GainsSome(s, Act(s, e));
      var t := Act(s, e);
      NextIs(s, e);
      GainsLater(s, t, Next(s, e));
      GainsReader(s, Next(s, e));
      SameWriter(t, Next(s, e));
    }
  }

  lemma NextIs(s: System, e: Event)
    requires Enabled(s, e) && Act(s, e).bufs != [] && (e.AddStarts? || e.AddStep? || e.Exchange?)
    ensures var t, u := Act(s, e), Next(s, e);
      && u == t.(past := u.past) && Visible(u) == Visible(t)
      && (u.past == s.past + [Visible(t)] || (u.past == s.past && !s.reader.Walking?))
  {
    hide Held, AddTurn;
    if e.AddStep? {
      TurnKeepsPast(s);
    }
  }

  lemma TurnKeepsPast(s: System)
    requires CanStep(s)
    ensures AddTurn(s).past == s.past
  {
    hide Grown, LinkNew, Final;
  }

  lemma GainsSome(s: System, t: System)
    requires Gains(s, t)
    ensures t.bufs != []
  {
  }

  lemma GainsLater(s: System, t: System, u: System)
    requires Gains(s, t) && u == t.(past := u.past)
    ensures Gains(s, u)
  {
    hide Held, Extends;
  }

  lemma SameWriter(t: System, u: System)
    requires BufsOk(t) && WriterOk(t) && u.bufs == t.bufs && u.copy == t.copy && u.writer == t.writer
    ensures BufsOk(u) && WriterOk(u)
  {
    hide BufOk, Held;
    SameWork(t, u);
  }

  lemma EmptyOk()
    ensures Inv(Empty()) && Visible(Empty()) == NO_NAMES
  {
    RootTrie(Empty().bufs[0].steps);
  }

  /** Any interleaving of one reader with the writers. */
  ghost predicate Run(s: System, events: seq<Event>, t: System)
    decreases |events|
  {
    if events == [] then t == s
    else Enabled(s, events[0]) && Run(Next(s, events[0]), events[1..], t)
  }

  lemma {:induction false} RunKeeps(s: System, events: seq<Event>, t: System)
    requires Inv(s) && Run(s, events, t)
    ensures Inv(t)
    decreases |events|
  {
    hide Inv, Enabled, Next;
    if events != [] {
      NextKeeps(s, events[0]);
      RunKeeps(Next(s, events[0]), events[1..], t);
    }
  }

  /** A finished walk gives the answer of the table as it stood at some instant since the walk began. */
  lemma FindIsLinearizable(events: seq<Event>, t: System)
    requires Run(Empty(), events, t) && t.reader.Done?
    ensures exists a :: a in t.past && Lookup(a, t.reader.name) == t.reader.v
  {
    EmptyOk();
    hide Empty;
    RunKeeps(Empty(), events, t);
  }

  /** A walk never leaves the buffer it loaded, and can always go on. */
  lemma WalksStayInside(events: seq<Event>, t: System)
    requires Run(Empty(), events, t) && t.reader.Walking?
    ensures CanRead(t)
  {
    EmptyOk();
    hide Empty;
    RunKeeps(Empty(), events, t);
    WalkStays(t.bufs[t.reader.buf], t.reader);
  }

  /** Until its last write, or the exchange if it works on a copy, an addition is invisible; then it is done. */
  lemma AdditionsAreAtomic(events: seq<Event>, t: System)
    requires Run(Empty(), events, t) && !t.writer.Idle?
    ensures t.bufs != []
    ensures t.writer.Adding? || t.writer.Thrown? ==> Visible(t) == t.writer.base
    ensures t.writer.Written? ==>
              Visible(t) == if t.copy.Copy? then t.writer.base
                            else Register(t.writer.base, t.writer.name, t.writer.value)
    ensures t.writer.Written? ==> Visible(Publish(t)) == Register(t.writer.base, t.writer.name, t.writer.value)
  {
    hide Empty, BufOk, Held, ReaderOk, Register, Enabled, Next;
    EmptyOk();
    RunKeeps(Empty(), events, t);
  }

  /** An addition always gets on: it only stops at a character that cannot be stored. */
  lemma AdditionsGetOn(events: seq<Event>, t: System)
    requires Run(Empty(), events, t) && t.writer.Adding?
    ensures CanStep(t)
  {
    EmptyOk();
    hide Empty;
    RunKeeps(Empty(), events, t);
    StepsReady(t);
  }
}
