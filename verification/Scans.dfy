/** One turn of each loop of the server, on values: what is done so far and what is left to do. */
module Scans {
  import opened Connections
  import opened Deques
  import opened Names
  import opened BrokerState
  import opened Common
  import ClientRequests
  import WorkerRequests
  import Sessions
  import opened Invariants

  // What requests need to know.

  lemma FreshWf(s: State, c: Connect)
    requires Wf(s) && c in s.conns
    ensures SameFrame(s, Upd(s, c, Sessions.Fresh(s.conns[c])))
    ensures SameFrame(s, Upd(s, c, Sessions.Fresh(s.conns[c]).(failOnDisconnect := false, noid := false)))
  {
    ConnIsLive(s, c);
    hide Wf, Grounded, ConnsLive;
    UpdWf(s, c, Sessions.Fresh(s.conns[c]));
    UpdWf(s, c, Sessions.Fresh(s.conns[c]).(failOnDisconnect := false, noid := false));
  }

  lemma RpcAddWf(s: State, c: Connect)
    requires Wf(s) && c in s.conns
    ensures SameFrame(s, Upd(s, c, Sessions.Engaged(s.conns[c])))
    ensures Sessions.Engaged(s.conns[c]).status == s.conns[c].status
    ensures SameFrame(s, Upd(s, c, s.conns[c].(workerMode := false)))
  {
    ConnIsLive(s, c);
    hide Wf, Grounded, ConnsLive;
    UpdWf(s, c, Sessions.Engaged(s.conns[c]));
    UpdWf(s, c, s.conns[c].(workerMode := false));
  }

  lemma ResultStatus(s: State, c: Connect)
    requires Wf(s) && c in s.conns
    ensures SameFrame(s, Sessions.WorkerResultNoid(s, c).s)
    ensures s.conns[c].status != ClientWaitResult ==>
      Sessions.WorkerResultNoid(s, c).s.conns[c].status != ClientWaitResult
  {
    hide Wf, Grounded, ConnsLive, Unlink;
    ConnIsLive(s, c);
    var v := s.conns[c];
    if v.client.Some? {
      ReleasedWf(s, c);
      UnlinkStatus(Upd(s, c, Sessions.Released(v)), v.client.value);
      hide Sessions.Released;
    }
  }

  lemma UnlinkStatus(s: State, c: Connect)
    requires c in s.conns
    ensures forall x :: x in s.conns ==> x in Unlink(s, c).conns && Unlink(s, c).conns[x].status == s.conns[x].status
  {
  }

  function Requested(v: Conn, r: Sessions.Request): Conn {
    v.(body := r.body, id := r.id, jsonId := r.jsonId)
     .(priority := r.priority, requiredWorker := r.requiredWorker, ifPresent := r.ifPresent)
  }

  function Blanked(v: Conn): Conn {
    v.(body := "", id := "", jsonId := "").(priority := 0, requiredWorker := "", ifPresent := false)
     .(started := true, noResponse := false)
  }

  lemma FreshIs(v: Conn)
    ensures var b := Blanked(v);
      && Sessions.Fresh(v) == (if v.workerMode then b else b.(name := "", connectionId := v.connectionId))
      && b.workerMode == v.workerMode && b.connectionId == v.connectionId
  {
  }

  function Titled(v: Conn, name: string, connectionId: string): Conn {
    v.(name := name, connectionId := connectionId)
  }

  function Timed(v: Conn, ping: nat, pingTimeout: nat, noResponse: bool): Conn {
    v.(ping := ping, pingTimeout := pingTimeout).(started := false, noResponse := noResponse)
  }

  lemma FilledIs(v: Conn, r: Sessions.Request, now: nat, name: string, connectionId: string, ping: nat,
                 pingTimeout: nat)
    requires name == if r.name != "" && (v.workerMode || r.kind != Sessions.Call) then r.name else v.name
    requires connectionId == if r.setId != "" then r.setId else v.connectionId
    requires ping == if r.ping > 0 then r.ping else v.ping
    requires pingTimeout == if ping > 0 then now + ping else v.pingTimeout
    ensures Sessions.Filled(v, r, now)
         == Timed(Titled(Requested(v, r), name, connectionId), ping, pingTimeout, v.noResponse)
  {
  }

  lemma CompleteFacts(s: State, c: Connect, r: Sessions.Request, now: nat)
    requires Wf(s) && c in s.conns && Listens(s.conns[c])
    ensures var f := Sessions.Filled(s.conns[c], r, now);
      SameFrame(s, Upd(s, c, f)) && Listens(f)
  {
    ConnIsLive(s, c);
    hide Wf, Grounded, ConnsLive;
    UpdWf(s, c, Sessions.Filled(s.conns[c], r, now));
  }

  lemma MarkFacts(s: State, c: Connect, r: Sessions.Request)
    requires Wf(s) && c in s.conns
    ensures var f := Sessions.Marked(s.conns[c], r);
      SameFrame(s, Upd(s, c, f)) && f.status == s.conns[c].status
  {
    ConnIsLive(s, c);
    hide Wf, Grounded, ConnsLive;
    UpdWf(s, c, Sessions.Marked(s.conns[c], r));
  }

  lemma MarkedIs(v: Conn, r: Sessions.Request, workerMode: bool, noid: bool, failOnDisconnect: bool, spoilt: bool)
    requires workerMode == (v.workerMode || r.kind == Sessions.AddWorkerMode)
    requires var adds := r.kind == Sessions.Add || r.kind == Sessions.AddWorkerMode;
      && noid == (v.noid || (adds && r.noid))
      && failOnDisconnect == (v.failOnDisconnect || (adds && (r.noid || r.failOnDisconnect)))
    requires spoilt == (v.spoilt || (r.kind == Sessions.AddWorkerMode && r.broken))
    ensures Sessions.Marked(v, r)
         == v.(started := v.started, noResponse := r.kind == Sessions.AsyncCall && !r.broken)
            .(workerMode := workerMode, noid := noid, failOnDisconnect := failOnDisconnect).(spoilt := spoilt)
  {
  }

  lemma ReleasedWf(s: State, w: Connect)
    requires Wf(s) && w in s.conns
    ensures SameFrame(s, Upd(s, w, Sessions.Released(s.conns[w])))
  {
    ConnIsLive(s, w);
    hide Wf, Grounded, ConnsLive;
    UpdWf(s, w, Sessions.Released(s.conns[w]));
  }

  // Registering under several names, one character at a time.

  ghost predicate Registering(s: State, t: State, w: Connect, names: string, start: nat, i: nat, rnd: Entropy) {
    && Wf(s) && w in s.conns && Wf(t) && t.conns.Keys == s.conns.Keys && start <= i <= |names|
    && WorkerRequests.AddWorkers(s, w, WorkerRequests.SplitNames(names, 0, 0), rnd)
    == WorkerRequests.AddWorkers(t, w, WorkerRequests.SplitNames(names, start, i), rnd)
  }

  lemma RegisterBegins(s: State, w: Connect, names: string, rnd: Entropy)
    requires Wf(s) && w in s.conns
    ensures Registering(s, s, w, names, 0, 0, rnd)
  {
    hide Wf, Grounded, ConnsLive;
  }

  lemma RegisterGoesOn(s: State, t: State, w: Connect, names: string, start: nat, i: nat, rnd: Entropy)
    requires Registering(s, t, w, names, start, i, rnd) && i < |names|
    ensures Wf(t) && w in t.conns
    ensures names[i] != ',' && names[i] != ' ' ==> Registering(s, t, w, names, start, i + 1, rnd)
    ensures names[i] == ',' || names[i] == ' ' ==>
      var r := WorkerRequests.AddWorker(t, w, names[start..i], rnd);
      if r.taken
      then WorkerRequests.AddWorkers(s, w, WorkerRequests.SplitNames(names, 0, 0), rnd) == r.s
      else Registering(s, r.s, w, names, i + 1, i + 1, rnd) && r.s.conns[w].status == WorkerWaitJob
  {
    hide Wf, WorkerRequests.AddWorker, Grounded, ConnsLive;
    if names[i] == ',' || names[i] == ' ' {
      var rest := WorkerRequests.SplitNames(names, i + 1, i + 1);
      assert WorkerRequests.SplitNames(names, start, i) == [names[start..i]] + rest;
      assert ([names[start..i]] + rest)[1..] == rest;
      ParkedStatus(t, w, names[start..i], rnd);
    }
  }

  lemma RegisterEnds(s: State, t: State, w: Connect, names: string, start: nat, rnd: Entropy)
    requires Registering(s, t, w, names, start, |names|, rnd)
    ensures Wf(t) && w in t.conns
    ensures WorkerRequests.AddWorkers(s, w, WorkerRequests.SplitNames(names, 0, 0), rnd)
         == if start < |names| then WorkerRequests.AddWorker(t, w, names[start..], rnd).s else t
  {
    hide Wf, WorkerRequests.AddWorker, Grounded, ConnsLive;
    if start < |names| {
      var one := [names[start..]];
      var r := WorkerRequests.AddWorker(t, w, one[0], rnd);
      assert WorkerRequests.SplitNames(names, start, |names|) == one && one[1..] == [];
      assert WorkerRequests.AddWorkers(r.s, w, [], rnd) == r.s;
    }
  }

  /** A worker that got no job waits for one. */
  lemma ParkedStatus(s: State, w: Connect, rawName: string, rnd: Entropy)
    requires Wf(s) && w in s.conns
    ensures var r := WorkerRequests.AddWorker(s, w, rawName, rnd);
      !r.taken ==> r.s.conns[w].status == WorkerWaitJob
  {
    hide Wf, Grounded, ConnsLive, WorkerRequests.Prepare, WorkerRequests.FindMessage, WorkerRequests.Park;
    var name := WorkerRequests.StripSlash(rawName);
    WfShape(s);
    var q, d := OpenedQueue(s, name), WorkerRequests.Prepare(s, w, name, rnd);
    ConnIsLive(d, w);
    LinesOf(d);
    match WorkerRequests.FindMessage(d, q, d.conns[w].nloop, w, -1, rnd)
    case FoundMessage(t, l, i) =>
    case NoMessage(t) =>
      LinesOf(t);
      ParkStatus(t, q, w);
      EnlistStatus(WorkerRequests.Park(t, q, w), q, w, name);
  }

  lemma WfShape(s: State)
    requires Wf(s)
    ensures Shape(s)
  {
  }

  lemma LinesOf(s: State)
    requires Wf(s)
    ensures |s.workers| == |s.clients| == |s.lists|
  {
    hide Grounded;
  }

  lemma ParkStatus(s: State, q: nat, w: Connect)
    requires Wf(s) && q < |s.workers| && w in s.conns
    ensures WorkerRequests.Park(s, q, w).conns[w].status == WorkerWaitJob
    ensures w in WorkerRequests.Park(s, q, w).conns && q < |WorkerRequests.Park(s, q, w).lists|
  {
    WorkerRequests.ParkWf(s, q, w);
    ParkFacts(s, q, w);
    hide Wf, Grounded, ConnsLive, WorkerRequests.Sweep;
  }

  lemma EnlistStatus(s: State, q: nat, w: Connect, name: string)
    requires w in s.conns && q < |s.lists|
    ensures WorkerRequests.Enlist(s, q, w, name).conns[w].status == s.conns[w].status
  {
  }

  lemma PrepareStatus(s: State, w: Connect, name: string, rnd: Entropy)
    requires Wf(s) && w in s.conns
    ensures WorkerRequests.Prepare(s, w, name, rnd).conns[w].status == s.conns[w].status
  {
    hide Wf, Grounded, ConnsLive, GeneratedId, CreateQueue, Without;
    WfShape(s);
    OpenQueueWf(s, name);
    var a := OpenQueue(s, name);
    ResolveConnectionIdWf(a, w, rnd);
    var b := Common.ResolveConnectionId(a, w, rnd);
    ConnIsLive(b, w);
    hide OpenQueue, Common.ResolveConnectionId;
  }

  lemma ServeFacts(s: State, q: nat, w: Connect, rnd: Entropy)
    requires Wf(s) && w in s.conns && q < |s.lists|
    ensures s.conns[w].nloop < s.threads && |s.clients| == |s.workers| == |s.lists|
    ensures var r := WorkerRequests.FindMessage(s, q, s.conns[w].nloop, w, -1, rnd);
      && Wf(r.s) && w in r.s.conns && |r.s.workers| == |r.s.lists| == |s.lists|
      && (r.FoundMessage? ==> Takes(r.s, q, r.l, r.i, w))
      && (r.NoMessage? ==> |WorkerRequests.Park(r.s, q, w).lists| == |s.lists|)
  {
    ConnIsLive(s, w);
    hide Grounded;
    match WorkerRequests.FindMessage(s, q, s.conns[w].nloop, w, -1, rnd)
    case FoundMessage(t, l, i) => WorkerRequests.TakeWf(t, q, l, i, w);
    case NoMessage(t) => WorkerRequests.ParkWf(t, q, w);
  }

  ghost predicate Takes(t: State, q: nat, l: nat, i: nat, w: Connect)
    requires Wf(t) && w in t.conns
  {
    && q < |t.clients| && l < |t.clients[q]| && i < |t.clients[q][l]|
    && |WorkerRequests.Take(t, q, l, i, w).lists| == |t.lists|
  }

  // Sweep, one entry at a time.

  ghost predicate Sweeping(s: State, t: State, q: nat, l: nat, w: Connect, i: nat) {
    && Wf(s) && q < |s.workers| && l < s.threads && SameFrame(s, t) && i <= |t.workers[q][l]|
    && WorkerRequests.Sweep(s, q, l, w, 0) == WorkerRequests.Sweep(t, q, l, w, i)
  }

  lemma SweepBegins(s: State, q: nat, l: nat, w: Connect)
    requires Wf(s) && q < |s.workers| && l < s.threads
    ensures Sweeping(s, s, q, l, w, 0) && l < |s.workers[q]|
  {
    hide Grounded, WorkerRequests.Sweep;
  }

  lemma SweepGoesOn(s: State, t: State, q: nat, l: nat, w: Connect, i: nat)
    requires Sweeping(s, t, q, l, w, i) && q < |t.workers| && l < |t.workers[q]| && i < |t.workers[q][l]|
    ensures Wf(t) && t.workers[q][l][i] in t.conns
    ensures var x := t.workers[q][l][i]; var u := EraseWorker(t, q, l, i);
      if t.conns[x].closed || x == w
      then Sweeping(s, u, q, l, w, i) && u.workers == SetAt(t.workers, q, l, RemoveAt(t.workers[q][l], i))
      else Sweeping(s, t, q, l, w, i + 1)
  {
    hide Grounded, Unlink;
    RemoveWorkerWf(t, q, l, i);
    EraseWorkerWf(t, q, l, i);
    ErasedWorkers(t, q, l, i);
    hide EraseWorker;
  }

  lemma SweepEnds(s: State, t: State, q: nat, l: nat, w: Connect, i: nat)
    requires Sweeping(s, t, q, l, w, i) && i == |t.workers[q][l]|
    ensures WorkerRequests.Sweep(s, q, l, w, 0) == t
  {
    hide Grounded;
  }

  lemma ParkFacts(s: State, q: nat, w: Connect)
    requires Wf(s) && q < |s.workers| && w in s.conns
    ensures s.conns[w].nloop < s.threads
    ensures var t := WorkerRequests.Sweep(s, q, s.conns[w].nloop, w, 0);
      q < |t.workers| && s.conns[w].nloop < |t.workers[q]| && w in t.conns
  {
    ConnIsLive(s, w);
    hide Grounded;
  }

  // The scan of messages, one deque at a time.

  ghost function Outcome(found: bool, s: State, l: nat, i: nat): WorkerRequests.MessageScan {
    if found then WorkerRequests.FoundMessage(s, l, i) else WorkerRequests.NoMessage(s)
  }

  /** The search of s has come to this loop, and the state has become t. */
  ghost predicate Finding(s: State, t: State, q: nat, local: nat, w: Connect, index: int, rnd: Entropy) {
    && Wf(s) && q < |s.clients| && local < s.threads && -1 <= index && w in s.conns && SameFrame(s, t)
    && WorkerRequests.FindMessage(s, q, local, w, -1, rnd) == WorkerRequests.FindMessage(t, q, local, w, index, rnd)
  }

  lemma FindBegins(s: State, q: nat, local: nat, w: Connect, rnd: Entropy)
    requires Wf(s) && q < |s.clients| && local < s.threads && w in s.conns
    ensures Finding(s, s, q, local, w, -1, rnd)
  {
    hide Grounded, WorkerRequests.FindMessage;
  }

  lemma FindGoesOn(s: State, t: State, q: nat, local: nat, w: Connect, index: int, rnd: Entropy)
    requires Finding(s, t, q, local, w, index, rnd) && index < t.threads
    ensures Wf(t) && q < |t.clients| == |t.lists| && w in t.conns && LoopAt(index, local) < t.threads
    ensures index == local ==> Finding(s, t, q, local, w, index + 1, rnd)
    ensures index != local ==>
      match WorkerRequests.ScanMessages(t, q, LoopAt(index, local), w, 0, rnd)
      case NoMessage(u) => Finding(s, u, q, local, w, index + 1, rnd)
      case FoundMessage(u, l, i) =>
        WorkerRequests.FindMessage(s, q, local, w, -1, rnd) == WorkerRequests.FoundMessage(u, l, i)
  {
    hide Grounded;
  }

  lemma FindEnds(s: State, t: State, q: nat, local: nat, w: Connect, index: int, rnd: Entropy)
    requires Finding(s, t, q, local, w, index, rnd) && index == t.threads
    ensures WorkerRequests.FindMessage(s, q, local, w, -1, rnd) == WorkerRequests.NoMessage(t)
  {
    hide Grounded;
  }

  // The scan over the loops for a worker.

  /** The scan that began at s has come to t and goes on with the loop of this index. */
  ghost predicate Hunting(s: State, t: State, q: nat, local: nat, required: string, index: int) {
    && Wf(s) && q < |s.workers| && local < s.threads && -1 <= index && SameFrame(s, t)
    && ClientRequests.FindWorker(s, q, local, required, -1) == ClientRequests.FindWorker(t, q, local, required, index)
  }

  lemma HuntBegins(s: State, q: nat, local: nat, required: string)
    requires Wf(s) && q < |s.workers| && local < s.threads
    ensures Hunting(s, s, q, local, required, -1)
  {
    hide Grounded, ClientRequests.FindWorker;
  }

  lemma HuntGoesOn(s: State, t: State, q: nat, local: nat, required: string, index: int)
    requires Hunting(s, t, q, local, required, index) && index < t.threads
    ensures Wf(t) && q < |t.workers| == |t.lists| && LoopAt(index, local) < t.threads
    ensures index == local ==> Hunting(s, t, q, local, required, index + 1)
    ensures index != local ==>
      match ClientRequests.ScanWorkers(t, q, LoopAt(index, local), required, 0)
      case NoWorker(u) => Hunting(s, u, q, local, required, index + 1)
      case FoundWorker(u, l, i) =>
        ClientRequests.FindWorker(s, q, local, required, -1) == ClientRequests.FoundWorker(u, l, i)
  {
    hide Grounded;
  }

  lemma HuntEnds(s: State, t: State, q: nat, local: nat, required: string, index: int)
    requires Hunting(s, t, q, local, required, index) && index == t.threads
    ensures ClientRequests.FindWorker(s, q, local, required, -1) == ClientRequests.NoWorker(t)
  {
    hide Grounded;
  }

  // The scan of messages, one message at a time.

  datatype Verdict = Pass | Drop | Found

  datatype Tried = Tried(s: State, verdict: Verdict)

  /** What the scan does with the message at position i. */
  ghost function Try(s: State, q: nat, l: nat, w: Connect, i: nat, rnd: Entropy): Tried
    requires Wf(s) && q < |s.clients| && l < |s.clients[q]| && i < |s.clients[q][l]| && w in s.conns
    requires MsgLive(s.clients[q][l][i], s.conns.Keys)
  {
    var m := s.clients[q][l][i];
    if !Suits(m.required, s.conns[w].connectionId) then Tried(s, Pass)
    else if m.conn.None? then Tried(s, Found)
    else if s.conns[m.conn.value].closed || s.conns[m.conn.value].status != ClientWaitResult then
      Tried(EraseMessage(s, q, l, i), Drop)
    else if s.conns[w].noid then Tried(s, Found)
    else TryResolved(s, q, l, i, m.conn.value, rnd)
  }

  ghost function TryResolved(s: State, q: nat, l: nat, i: nat, c: Connect, rnd: Entropy): Tried
    requires Wf(s) && q < |s.clients| && l < |s.clients[q]| && i < |s.clients[q][l]| && c in s.conns
  {
    ResolveIdWf(s, c, rnd);
    var t := ResolveId(s, c, rnd);
    if ResolvedId(s, c, rnd) in s.wait then Tried(WorkerRequests.RejectQueued(t, q, l, i, c), Drop) else Tried(t, Found)
  }

  /** The scan after that: what is left of it, and what has stayed the same. */
  ghost predicate GoesOn(s: State, r: Tried, q: nat, l: nat, w: Connect, i: nat, rnd: Entropy)
    requires Wf(s) && q < |s.clients| && l < s.threads && i < |s.clients[q][l]| && w in s.conns
  {
    && SameFrame(s, r.s) && r.s.conns[w].status == s.conns[w].status
    && |r.s.clients[q][l]| == |s.clients[q][l]| - (if r.verdict == Drop then 1 else 0)
    && (r.verdict == Found ==> (
          && r.s.clients[q][l][i].conn != Some(w)
          && WorkerRequests.ScanMessages(s, q, l, w, i, rnd) == WorkerRequests.FoundMessage(r.s, l, i)))
    && (r.verdict != Found ==> (
          var next := if r.verdict == Pass then i + 1 else i;
          WorkerRequests.ScanMessages(s, q, l, w, i, rnd) == WorkerRequests.ScanMessages(r.s, q, l, w, next, rnd)))
  }

  lemma TryGoesOn(s: State, q: nat, l: nat, w: Connect, i: nat, rnd: Entropy)
    requires Wf(s) && q < |s.clients| && l < s.threads && i < |s.clients[q][l]| && w in s.conns
    requires s.conns[w].status != ClientWaitResult
    ensures MsgLive(s.clients[q][l][i], s.conns.Keys)
    ensures GoesOn(s, Try(s, q, l, w, i, rnd), q, l, w, i, rnd)
  {
    assert MsgLive(s.clients[q][l][i], s.conns.Keys) by { RemoveMessageWf(s, q, l, i); }
    hide WorkersLive, ClientsLive, ListsLive, WaitLive, ConnsLive;
    var m := s.clients[q][l][i];
    if Suits(m.required, s.conns[w].connectionId) && m.conn.Some? {
      var c := m.conn.value;
      if s.conns[c].closed || s.conns[c].status != ClientWaitResult {
        TryDrops(s, q, l, w, i, rnd, c);
      } else if !s.conns[w].noid {
        TryResolves(s, q, l, w, i, rnd, c);
      }
    }
  }

  /** The scan of s has come to position i, and the state has become t. */
  ghost predicate Scanning(s: State, t: State, q: nat, l: nat, w: Connect, i: nat, rnd: Entropy) {
    && Wf(s) && q < |s.clients| && l < s.threads && w in s.conns
    && SameFrame(s, t) && i <= |t.clients[q][l]| && t.conns[w].status != ClientWaitResult
    && WorkerRequests.ScanMessages(s, q, l, w, 0, rnd) == WorkerRequests.ScanMessages(t, q, l, w, i, rnd)
  }

  /** The scan of s has stopped in t, at a message that w can take. */
  ghost predicate Hit(s: State, t: State, q: nat, l: nat, w: Connect, i: nat, rnd: Entropy) {
    && Wf(s) && q < |s.clients| && l < s.threads && w in s.conns
    && SameFrame(s, t) && i < |t.clients[q][l]| && t.clients[q][l][i].conn != Some(w)
    && WorkerRequests.ScanMessages(s, q, l, w, 0, rnd) == WorkerRequests.FoundMessage(t, l, i)
  }

  lemma ScanBegins(s: State, q: nat, l: nat, w: Connect, rnd: Entropy)
    requires Wf(s) && q < |s.clients| && l < s.threads && w in s.conns && s.conns[w].status != ClientWaitResult
    ensures Scanning(s, s, q, l, w, 0, rnd)
  {
    hide Grounded, WorkerRequests.ScanMessages;
  }

  lemma ScanGoesOn(s: State, t: State, q: nat, l: nat, w: Connect, i: nat, rnd: Entropy)
    requires Scanning(s, t, q, l, w, i, rnd) && i < |t.clients[q][l]|
    ensures Wf(t) && MsgLive(t.clients[q][l][i], t.conns.Keys) && w in t.conns
    ensures var r := Try(t, q, l, w, i, rnd);
      && Wf(r.s)
      && q < |r.s.clients| && l < |r.s.clients[q]| && i <= |r.s.clients[q][l]|
      && (if r.verdict == Found then Hit(s, r.s, q, l, w, i, rnd)
          else
            && Scanning(s, r.s, q, l, w, if r.verdict == Pass then i + 1 else i, rnd)
            && |r.s.clients[q][l]| == |t.clients[q][l]| - (if r.verdict == Drop then 1 else 0))
  {
    TryGoesOn(t, q, l, w, i, rnd);
    hide Grounded, WorkerRequests.ScanMessages, Try;
  }

  lemma ScanEnds(s: State, t: State, q: nat, l: nat, w: Connect, i: nat, rnd: Entropy)
    requires Scanning(s, t, q, l, w, i, rnd) && i == |t.clients[q][l]|
    ensures WorkerRequests.ScanMessages(s, q, l, w, 0, rnd) == WorkerRequests.NoMessage(t)
    ensures t.conns[w].status != ClientWaitResult
  {
    hide Grounded;
  }

  lemma TryDrops(s: State, q: nat, l: nat, w: Connect, i: nat, rnd: Entropy, c: Connect)
    requires Wf(s) && q < |s.clients| && l < s.threads && i < |s.clients[q][l]| && w in s.conns && c in s.conns
    requires Suits(s.clients[q][l][i].required, s.conns[w].connectionId) && s.clients[q][l][i].conn == Some(c)
    requires s.conns[c].closed || s.conns[c].status != ClientWaitResult
    ensures GoesOn(s, Tried(EraseMessage(s, q, l, i), Drop), q, l, w, i, rnd)
  {
    hide WorkersLive, ClientsLive, ListsLive, WaitLive, ConnsLive;
    EraseMessageWf(s, q, l, i);
    WorkerRequests.ErasedClients(s, q, l, i);
  }

  lemma TryResolves(s: State, q: nat, l: nat, w: Connect, i: nat, rnd: Entropy, c: Connect)
    requires Wf(s) && q < |s.clients| && l < s.threads && i < |s.clients[q][l]| && w in s.conns && c in s.conns
    requires Suits(s.clients[q][l][i].required, s.conns[w].connectionId) && s.clients[q][l][i].conn == Some(c)
    requires !s.conns[c].closed && s.conns[c].status == ClientWaitResult && !s.conns[w].noid && c != w
    ensures GoesOn(s, TryResolved(s, q, l, i, c, rnd), q, l, w, i, rnd)
  {
    hide Grounded, ConnsLive, ResolvedId, ResolveId;
    ResolveIdWf(s, c, rnd);
    var t := ResolveId(s, c, rnd);
    ResolvedIs(s, c, rnd);
    if ResolvedId(s, c, rnd) in s.wait {
      WorkerRequests.RejectQueuedWf(t, q, l, i, c);
      assert WorkerRequests.DropMessage(s, q, l, i, rnd) == WorkerRequests.RejectQueued(t, q, l, i, c);
    }
  }

  lemma ResolvedIs(s: State, c: Connect, rnd: Entropy)
    requires c in s.conns
    ensures ResolveId(s, c, rnd).conns[c].id == ResolvedId(s, c, rnd) && ResolveId(s, c, rnd).wait == s.wait
    ensures ResolveId(s, c, rnd).clients == s.clients
    ensures forall w :: w in s.conns ==> ResolveId(s, c, rnd).conns[w].status == s.conns[w].status
  {
  }

  // Periodic work

  function Expired(v: Conn, now: nat): Conn {
    v.(status := StatusAfterAsync(v), pingTimeout := now + v.ping)
  }

  lemma ExpiredIs(v: Conn, now: nat, later: nat, status: Status)
    requires later == now + v.ping && status == if v.workerMode then WorkerModeAsync else Net
    ensures Expired(v, now) == v.(status := status).(ping := v.ping, pingTimeout := later)
  {
  }

  lemma TimeoutFacts(s: State, w: Connect, now: nat)
    requires Wf(s) && w in s.conns
    ensures Sessions.TimeoutOne(s, w, now)
         == (var v := s.conns[w];
             if v.ping == 0 || v.pingTimeout > now || !Ready(v) then s
             else Send(Upd(s, w, Expired(v, now)), w, Timeout))
  {
    hide Wf, Grounded, ConnsLive;
  }

  /** The entries that are left to look at, and the state so far. */
  ghost predicate Timing(s: State, t: State, rest: seq<Connect>, now: nat) {
    && Wf(s) && SameFrame(s, t) && (forall i :: 0 <= i < |rest| ==> rest[i] in t.conns)
    && Sessions.CheckTimeout(s, now) == Sessions.TimeoutAll(t, rest, now)
  }

  lemma TimingBegins(s: State, now: nat)
    requires Wf(s)
    ensures Timing(s, s, Flat(s.workers[0..]), now)
  {
    assert s.workers[0..] == s.workers;
    Sessions.FlatLive(s.workers, s.conns.Keys);
  }

  lemma TimingGoesOn(s: State, t: State, w: Connect, rest: seq<Connect>, now: nat)
    requires Timing(s, t, [w] + rest, now)
    ensures Wf(t) && w in t.conns && Timing(s, Sessions.TimeoutOne(t, w, now), rest, now)
  {
    hide Wf, Sessions.TimeoutOne, Sessions.CheckTimeout, Grounded, ConnsLive;
    assert w == ([w] + rest)[0] && rest == ([w] + rest)[1..];
    forall i | 0 <= i < |rest| ensures rest[i] in t.conns {
      assert rest[i] == ([w] + rest)[i + 1];
    }
  }

  lemma TimingEnds(s: State, t: State, rest: seq<Connect>, now: nat)
    requires Timing(s, t, rest, now) && rest == []
    ensures Sessions.CheckTimeout(s, now) == t
  {
    hide Wf, Sessions.CheckTimeout, Grounded, ConnsLive;
  }

  lemma FlatFirst(ds: Deques<Connect>, q: nat)
    requires q < |ds|
    ensures Flat(ds[q..]) == Join(ds[q]) + Flat(ds[q + 1..])
  {
    assert ds[q..][0] == ds[q] && ds[q..][1..] == ds[q + 1..];
  }

  lemma FlatNone(ds: Deques<Connect>)
    requires ds == []
    ensures Flat(ds) == []
  {
  }

  lemma JoinFirst(ss: seq<seq<Connect>>, l: nat, after: seq<Connect>)
    requires l < |ss|
    ensures Join(ss[l..]) + after == ss[l] + (Join(ss[l + 1..]) + after)
  {
    assert ss[l..][0] == ss[l] && ss[l..][1..] == ss[l + 1..];
  }

  lemma JoinNone(ss: seq<seq<Connect>>, after: seq<Connect>)
    requires ss == []
    ensures Join(ss) + after == after
  {
  }

  ghost predicate CleaningWorkers(s: State, t: State, q: nat, l: nat, i: nat) {
    && Wf(s) && q < |s.workers| && l < s.threads && SameFrame(s, t) && i <= |t.workers[q][l]|
    && Sessions.CleanWorkers(s, q, l, 0) == Sessions.CleanWorkers(t, q, l, i)
  }

  lemma CleanWorkersBegins(s: State, q: nat, l: nat)
    requires Wf(s) && q < |s.workers| && l < s.threads
    ensures CleaningWorkers(s, s, q, l, 0) && l < |s.workers[q]|
  {
    hide Grounded, Sessions.CleanWorkers;
  }

  lemma CleanWorkersGoesOn(s: State, t: State, q: nat, l: nat, i: nat)
    requires CleaningWorkers(s, t, q, l, i) && q < |t.workers| && l < |t.workers[q]| && i < |t.workers[q][l]|
    ensures Wf(t) && t.workers[q][l][i] in t.conns
    ensures var u := EraseWorker(t, q, l, i);
      if !Ready(t.conns[t.workers[q][l][i]])
      then CleaningWorkers(s, u, q, l, i) && u.workers == SetAt(t.workers, q, l, RemoveAt(t.workers[q][l], i))
      else CleaningWorkers(s, t, q, l, i + 1)
  {
    hide Grounded, Unlink;
    RemoveWorkerWf(t, q, l, i);
    EraseWorkerWf(t, q, l, i);
    ErasedWorkers(t, q, l, i);
    hide EraseWorker;
  }

  lemma CleanWorkersEnds(s: State, t: State, q: nat, l: nat, i: nat)
    requires CleaningWorkers(s, t, q, l, i) && i == |t.workers[q][l]|
    ensures Sessions.CleanWorkers(s, q, l, 0) == t
  {
    hide Grounded;
  }

  ghost predicate CleaningClients(s: State, t: State, q: nat, l: nat, i: nat) {
    && Wf(s) && q < |s.clients| && l < s.threads && SameFrame(s, t) && i <= |t.clients[q][l]|
    && Sessions.CleanClients(s, q, l, 0) == Sessions.CleanClients(t, q, l, i)
  }

  lemma CleanClientsBegins(s: State, q: nat, l: nat)
    requires Wf(s) && q < |s.clients| && l < s.threads
    ensures CleaningClients(s, s, q, l, 0) && l < |s.clients[q]|
  {
    hide Grounded, Sessions.CleanClients;
  }

  lemma CleanClientsGoesOn(s: State, t: State, q: nat, l: nat, i: nat)
    requires CleaningClients(s, t, q, l, i) && q < |t.clients| && l < |t.clients[q]| && i < |t.clients[q][l]|
    ensures Wf(t) && MsgLive(t.clients[q][l][i], t.conns.Keys)
    ensures var u := EraseMessage(t, q, l, i);
      if Sessions.Stale(t, t.clients[q][l][i])
      then CleaningClients(s, u, q, l, i) && u.clients == SetAt(t.clients, q, l, RemoveAt(t.clients[q][l], i))
      else CleaningClients(s, t, q, l, i + 1)
  {
    hide Grounded, Unlink;
    RemoveMessageWf(t, q, l, i);
    EraseMessageWf(t, q, l, i);
    WorkerRequests.ErasedClients(t, q, l, i);
    hide EraseMessage;
  }

  lemma CleanClientsEnds(s: State, t: State, q: nat, l: nat, i: nat)
    requires CleaningClients(s, t, q, l, i) && i == |t.clients[q][l]|
    ensures Sessions.CleanClients(s, q, l, 0) == t
  {
    hide Grounded;
  }

  ghost predicate CleaningLine(s: State, t: State, q: nat, l: nat) {
    && Wf(s) && q < |s.lists| && SameFrame(s, t)
    && Sessions.CleanLine(s, q, 0) == Sessions.CleanLine(t, q, l)
  }

  lemma CleanLineBegins(s: State, q: nat)
    requires Wf(s) && q < |s.lists|
    ensures CleaningLine(s, s, q, 0)
  {
    hide Wf, Grounded, ConnsLive;
  }

  lemma CleanLineGoesOn(s: State, t: State, q: nat, l: nat)
    requires CleaningLine(s, t, q, l) && l < t.threads
    ensures Wf(t) && q < |t.workers|
    ensures var a := Sessions.CleanWorkers(t, q, l, 0);
      && Wf(a) && q < |a.clients| && l < a.threads
      && CleaningLine(s, Sessions.CleanClients(a, q, l, 0), q, l + 1)
  {
    hide Grounded, Sessions.CleanWorkers, Sessions.CleanClients;
  }

  lemma CleanLineEnds(s: State, t: State, q: nat, l: nat)
    requires CleaningLine(s, t, q, l) && l == t.threads
    ensures Sessions.CleanLine(s, q, 0) == t
  {
    hide Wf, Grounded, ConnsLive;
  }

  ghost predicate Cleaning(s: State, t: State, q: nat, locked: set<nat>) {
    && Wf(s) && SameFrame(s, t)
    && Sessions.Clean(s, 0, locked) == Sessions.Clean(t, q, locked)
  }

  lemma CleanBegins(s: State, locked: set<nat>)
    requires Wf(s)
    ensures Cleaning(s, s, 0, locked)
  {
    hide Wf, Grounded, ConnsLive;
  }

  lemma CleanGoesOn(s: State, t: State, q: nat, locked: set<nat>)
    requires Cleaning(s, t, q, locked) && q < |t.lists|
    ensures Wf(t) && Cleaning(s, if q in locked then t else Sessions.CleanLine(t, q, 0), q + 1, locked)
  {
    hide Wf, Sessions.CleanLine, Grounded, ConnsLive;
  }

  lemma CleanEnds(s: State, t: State, q: nat, locked: set<nat>)
    requires Cleaning(s, t, q, locked) && q == |t.lists|
    ensures Sessions.Clean(s, 0, locked) == t
  {
    hide Wf, Grounded, ConnsLive;
  }

  /** The first i dead connections are sorted into those that are kept and those that are freed. */
  ghost predicate Freeing(s: State, loop: nat, i: nat, kept: seq<Connect>, gone: set<Connect>) {
    && (forall k :: 0 <= k < |s.dead| ==> s.dead[k] in s.conns) && i <= |s.dead|
    && Sessions.DeadElsewhere(s, s.dead, loop) == kept + Sessions.DeadElsewhere(s, s.dead[i..], loop)
    && gone == (set k | 0 <= k < i && s.conns[s.dead[k]].nloop == loop && s.conns[s.dead[k]].link == 0 :: s.dead[k])
  }

  lemma FreeingBegins(s: State, loop: nat)
    requires Wf(s)
    ensures Freeing(s, loop, 0, [], {})
  {
    assert s.dead[0..] == s.dead;
  }

  lemma FreeingGoesOn(s: State, loop: nat, i: nat, kept: seq<Connect>, gone: set<Connect>)
    requires Freeing(s, loop, i, kept, gone) && i < |s.dead|
    ensures s.dead[i] in s.conns
    ensures var v := s.conns[s.dead[i]];
      Freeing(s, loop, i + 1, if v.nloop == loop then kept else kept + [s.dead[i]],
              if v.nloop == loop && v.link == 0 then gone + {s.dead[i]} else gone)
  {
    assert s.dead[i..][0] == s.dead[i] && s.dead[i..][1..] == s.dead[i + 1..];
  }

  lemma FreeingEnds(s: State, loop: nat, i: nat, kept: seq<Connect>, gone: set<Connect>)
    requires Freeing(s, loop, i, kept, gone) && i == |s.dead|
    ensures kept == Sessions.DeadElsewhere(s, s.dead, loop) && gone == Sessions.Victims(s, loop)
  {
  }
}
