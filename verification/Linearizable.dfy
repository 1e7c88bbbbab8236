/**
 One reader walks the trie without a lock while writers add names one after the other. Each
 event below is one read or one write of shared memory, so a run is any interleaving of the
 two sides under sequential consistency. Replaced buffers stay readable.
 */
module Linearizable {
  import opened Names
  import opened NameFacts
  import opened Tries
  import opened Mappers

  /** A buffer and the paths its nodes stand for. */
  datatype Buf = Buf(steps: seq<Step>, paths: Paths)

  datatype Copy = NoCopy | Copy(buf: Buf)

  /** `base` is the table that readers saw when the addition began. */
  datatype Writer =
    | Idle
    | Adding(base: Names, name: string, value: nat, i: nat, at: nat)
    | Written(base: Names, name: string, value: nat)
    | Thrown(base: Names)

  /** What the reader does next with the node it stands at. */
  datatype Phase = TestStd | TakeStd | Follow | TakeEnd

  datatype Reader =
    | Resting
    | Walking(buf: nat, name: string, i: nat, at: nat, std: nat, phase: Phase)
    | Done(name: string, v: nat)

  /** `past` holds the table that readers could see at every instant of the reader's latest walk. */
  datatype System = System(bufs: seq<Buf>, copy: Copy, writer: Writer, reader: Reader, past: seq<Names>)

  datatype Event =
    | AddStarts(name: string, value: nat)
    | AddStep
    | Exchange
    | FindStarts(name: string)
    | Read

  const ROOM := 4

  function Empty(): (s: System) {
    System([Buf(seq(ROOM, _ => Zeroed()), ROOT)], NoCopy, Idle, Resting, [])
  }

  /** The published buffer is the last one. */
  function Published(s: System): Buf
    requires s.bufs != []
  {
    s.bufs[|s.bufs| - 1]
  }

  function Work(s: System): Buf
    requires s.bufs != []
  {
    if s.copy.Copy? then s.copy.buf else Published(s)
  }

  function Visible(s: System): Names
    requires s.bufs != []
  {
    Held(Published(s))
  }

  function Held(b: Buf): Names {
    Stored(b.steps, b.paths)
  }

  // The writer

  function SetWork(s: System, b: Buf): System
    requires s.bufs != []
  {
    if s.copy.Copy? then s.(copy := Copy(b)) else s.(bufs := s.bufs[|s.bufs| - 1 := b])
  }

  function Larger(cap: nat): (r: nat)
    ensures r >= cap
    ensures cap > 0 ==> r > cap
  {
    if cap >= 512 then cap + 256 else cap * 2
  }

  function Grown(b: Buf): Buf {
    Buf(b.steps + seq(Larger(|b.steps|) - |b.steps|, _ => Zeroed()), b.paths)
  }

  /** The buffer the next link is written to: a copy is made when no node is free. */
  function WithRoom(s: System): System
    requires s.bufs != []
  {
    if |Work(s).paths.path| < |Work(s).steps| then s else s.(copy := Copy(Grown(Work(s))))
  }

  function LinkNew(b: Buf, at: nat, s: string, a: char): Buf
    requires 1 <= at <= |b.steps| && Storable(a) && |b.steps[at - 1].k| == WIDTH
  {
    Buf(SetLink(b.steps, at, ColumnOf(a), |b.paths.path| + 1), AddPath(b.paths, s + [a]))
  }

  function Final(b: Buf, at: nat, value: nat, wild: bool): Buf
    requires 1 <= at <= |b.steps|
  {
    b.(steps := if wild then SetStd(b.steps, at, value) else SetEnd(b.steps, at, value))
  }

  predicate CanStep(s: System) {
    && s.bufs != [] && s.writer.Adding?
    && 1 <= s.writer.at <= |Work(s).steps|
    && |Work(s).steps[s.writer.at - 1].k| == WIDTH
  }

  /** One turn of the loop of add; at most one write that readers can see. */
  function AddTurn(s: System): System
    requires CanStep(s)
  {
    var w := s.writer;
    var b := Work(s);
    if w.i >= |w.name| then SetWork(s, Final(b, w.at, w.value, false)).(writer := Written(w.base, w.name, w.value))
    else if w.name[w.i] == '*' then
      SetWork(s, Final(b, w.at, w.value, true)).(writer := Written(w.base, w.name, w.value))
    else if !Storable(w.name[w.i]) then s.(writer := Thrown(w.base))
    else
      var next := b.steps[w.at - 1].k[ColumnOf(w.name[w.i])];
      if next != 0 then s.(writer := w.(i := w.i + 1, at := next))
      else
        var t := WithRoom(s);
        SetWork(t, LinkNew(Work(t), w.at, w.name[..w.i], w.name[w.i]))
        .(writer := w.(i := w.i + 1, at := |b.paths.path| + 1))
  }

  function Publish(s: System): System {
    if s.copy.Copy? then s.(bufs := s.bufs + [s.copy.buf], copy := NoCopy, writer := Idle) else s.(writer := Idle)
  }

  // The reader

  predicate CanRead(s: System) {
    && s.reader.Walking? && s.reader.buf < |s.bufs|
    && 1 <= s.reader.at <= |s.bufs[s.reader.buf].steps|
    && |s.bufs[s.reader.buf].steps[s.reader.at - 1].k| == WIDTH
  }

  /** The next read of the walk. Both `std` and `end` are read once to test them and once to take them. */
  function ReadNext(r: Reader, step: Step): Reader
    requires r.Walking? && |step.k| == WIDTH
  {
    match r.phase
    case TestStd => r.(phase := if step.std != 0 then TakeStd else Follow)
    case TakeStd => r.(std := step.std, phase := Follow)
    case TakeEnd => Done(r.name, step.end)
    case Follow =>
      if r.i >= |r.name| then (if step.end != 0 then r.(phase := TakeEnd) else Done(r.name, r.std))
      else if !Storable(r.name[r.i]) then Done(r.name, r.std)
      else
        var next := step.k[ColumnOf(r.name[r.i])];
        if next == 0 then Done(r.name, r.std) else r.(i := r.i + 1, at := next, phase := TestStd)
  }

  // Runs

  predicate Enabled(s: System, e: Event) {
    match e
    case AddStarts(name, value) => s.bufs != [] && s.writer.Idle? && value != 0
    case AddStep => CanStep(s)
    case Exchange => s.writer.Written?
    case FindStarts(name) => s.bufs != [] && !s.reader.Walking?
    case Read => CanRead(s)
  }

  function Act(s: System, e: Event): System
    requires Enabled(s, e)
  {
    match e
    case AddStarts(name, value) => s.(writer := Adding(Visible(s), name, value, 0, 1))
    case AddStep => AddTurn(s)
    case Exchange => Publish(s)
    case FindStarts(name) => s.(reader := Walking(|s.bufs| - 1, name, 0, 1, 0, TestStd), past := [])
    case Read => s.(reader := ReadNext(s.reader, s.bufs[s.reader.buf].steps[s.reader.at - 1]))
  }

  /** After each event of the walk or during it, the table that readers can see is noted. */
  function Next(s: System, e: Event): System
    requires Enabled(s, e)
  {
    var t := Act(s, e);
    if t.bufs == [] || !(s.reader.Walking? || e.FindStarts?) then t else t.(past := t.past + [Visible(t)])
  }
}
