/** add_worker: a worker looks for a waiting call, and waits in the queue if there is none. */
module WorkerRequests {
  import opened Connections
  import opened Deques
  import opened Names
  import opened BrokerState
  import opened Common

  datatype MessageScan =
    | FoundMessage(s: State, l: nat, i: nat)
    | NoMessage(s: State)

  ghost predicate MessageScanOk(s: State, q: nat, r: MessageScan) {
    && SameFrame(s, r.s)
    && (r.FoundMessage? ==> q < |r.s.clients| && r.l < r.s.threads && r.i < |r.s.clients[q][r.l]|)
  }

  /** A waiting client whose id is already in use is turned away. */
  function RejectQueued(s: State, q: nat, l: nat, i: nat, c: Connect): State
    requires Wf(s) && q < |s.clients| && l < |s.clients[q]| && i < |s.clients[q][l]| && c in s.conns
  {
    EraseMessageWf(s, q, l, i);
    var t := EraseMessage(s, q, l, i);
    Upd(t, c, Served(t.conns[c], Net, CollisionId))
  }

  lemma RejectQueuedWf(s: State, q: nat, l: nat, i: nat, c: Connect)
    requires Wf(s) && q < |s.clients| && l < |s.clients[q]| && i < |s.clients[q][l]| && c in s.conns
    ensures SameFrame(s, RejectQueued(s, q, l, i, c))
    ensures RejectQueued(s, q, l, i, c).clients == SetAt(s.clients, q, l, RemoveAt(s.clients[q][l], i))
  {
    hide WorkersLive, ClientsLive, ListsLive, WaitLive, ConnsLive;
    EraseMessageWf(s, q, l, i);
    var t := EraseMessage(s, q, l, i);
    ErasedClients(s, q, l, i);
    hide EraseMessage;
    ConnIsLive(t, c);
    UpdWf(t, c, Served(t.conns[c], Net, CollisionId));
  }

  lemma ErasedClients(s: State, q: nat, l: nat, i: nat)
    requires q < |s.clients| && l < |s.clients[q]| && i < |s.clients[q][l]|
    requires MsgLive(s.clients[q][l][i], s.conns.Keys)
    ensures EraseMessage(s, q, l, i).clients == SetAt(s.clients, q, l, RemoveAt(s.clients[q][l], i))
  {
  }

  /** Whether the worker can take the suitable message m as things stand. */
  predicate Takeable(s: State, m: Msg, w: Connect, rnd: Entropy)
    requires w in s.conns && MsgLive(m, s.conns.Keys)
  {
    m.conn.Some? ==>
      var c := m.conn.value;
      && !s.conns[c].closed && s.conns[c].status == ClientWaitResult
      && (!s.conns[w].noid ==> ResolvedId(s, c, rnd) !in s.wait)
  }

  /** A message that cannot be taken is dropped; its client is told only if it is still waiting. */
  function DropMessage(s: State, q: nat, l: nat, i: nat, rnd: Entropy): (t: State)
    requires Wf(s) && q < |s.clients| && l < s.threads && i < |s.clients[q][l]|
    requires s.clients[q][l][i].conn.Some?
    ensures SameFrame(s, t) && t.clients == SetAt(s.clients, q, l, RemoveAt(s.clients[q][l], i))
  {
    var c := s.clients[q][l][i].conn.value;
    EraseMessageWf(s, q, l, i);
    if s.conns[c].closed || s.conns[c].status != ClientWaitResult then EraseMessage(s, q, l, i)
    else
      ResolveIdWf(s, c, rnd);
      RejectQueuedWf(ResolveId(s, c, rnd), q, l, i, c);
      RejectQueued(ResolveId(s, c, rnd), q, l, i, c)
  }

  /** Erases every suitable message it passes; stops at the first one this worker can take. */
  function ScanMessages(s: State, q: nat, l: nat, w: Connect, i: nat, rnd: Entropy): (r: MessageScan)
    requires Wf(s) && q < |s.clients| && l < s.threads && i <= |s.clients[q][l]| && w in s.conns
    ensures MessageScanOk(s, q, r)
    decreases |s.clients[q][l]| - i
  {
    var d := s.clients[q][l];
    if i >= |d| then NoMessage(s)
    else if !Suits(d[i].required, s.conns[w].connectionId) then ScanMessages(s, q, l, w, i + 1, rnd)
    else if !Takeable(s, d[i], w, rnd) then ScanMessages(DropMessage(s, q, l, i, rnd), q, l, w, i, rnd)
    else if d[i].conn.None? || s.conns[w].noid then FoundMessage(s, l, i)
    else
      ResolveIdWf(s, d[i].conn.value, rnd);
      FoundMessage(ResolveId(s, d[i].conn.value, rnd), l, i)
  }

  function FindMessage(s: State, q: nat, local: nat, w: Connect, index: int, rnd: Entropy): (r: MessageScan)
    requires Wf(s) && q < |s.clients| && local < s.threads && -1 <= index && w in s.conns
    ensures MessageScanOk(s, q, r)
    decreases s.threads - index
  {
    if index >= s.threads then NoMessage(s)
    else if index == local then FindMessage(s, q, local, w, index + 1, rnd)
    else
      match ScanMessages(s, q, LoopAt(index, local), w, 0, rnd)
      case FoundMessage(t, l, i) => FoundMessage(t, l, i)
      case NoMessage(t) => FindMessage(t, q, local, w, index + 1, rnd)
  }

  /** The worker takes the message found at position i of loop l. */
  function Take(s: State, q: nat, l: nat, i: nat, w: Connect): State
    requires Wf(s) && q < |s.clients| && l < |s.clients[q]| && i < |s.clients[q][l]| && w in s.conns
  {
    EraseMessageWf(s, q, l, i);
    var m := s.clients[q][l][i];
    var t := EraseMessage(s, q, l, i);
    if m.conn.None? then TakeAsync(t, w, m)
    else TakeSync(t, w, m.conn.value)
  }

  function TakeAsync(t: State, w: Connect, m: Msg): State
    requires w in t.conns
  {
    var v := t.conns[w];
    HandedOver(Upd(t, w, Served(v, StatusAfterAsync(v), AsyncTask(JobOf(m)))), JobOf(m))
  }

  function HandedOver(s: State, job: Job): State {
    s.(handed := s.handed + multiset{job})
  }

  function ServedNoid(v: Conn, c: Connect, r: Reply): Conn {
    v.(client := if v.failOnDisconnect then Some(c) else v.client, status := WorkerWaitResult, out := v.out + [r])
  }

  /** The client whose call is taken from a queue stays busy until its answer comes. */
  function Picked(v: Conn, links: nat): Conn {
    v.(status := Busy, link := v.link + links)
  }

  function TakeSync(t: State, w: Connect, c: Connect): State
    requires w in t.conns && c in t.conns
  {
    var v, u := t.conns[w], t.conns[c];
    if v.noid then
      Upd2(t, w, ServedNoid(v, c, Task(u.name, u.body)), c, Picked(u, if v.failOnDisconnect then 1 else 0))
    else
      AddWait(Upd2(t, w, ServedWithId(v, c, TaskWithId(u.id, u.name, u.body)), c, Picked(u, LinksGiven(v))), u.id, c)
  }

  /** Drops closed workers and earlier entries of this worker from its own loop's deque. */
  function Sweep(s: State, q: nat, l: nat, w: Connect, i: nat): (t: State)
    requires Wf(s) && q < |s.workers| && l < s.threads && i <= |s.workers[q][l]|
    ensures SameFrame(s, t)
    decreases |s.workers[q][l]| - i
  {
    var d := s.workers[q][l];
    if i >= |d| then s
    else if s.conns[d[i]].closed || d[i] == w then
      EraseWorkerWf(s, q, l, i);
      Sweep(EraseWorker(s, q, l, i), q, l, w, i)
    else Sweep(s, q, l, w, i + 1)
  }

  function Park(s: State, q: nat, w: Connect): State
    requires Wf(s) && q < |s.workers| && w in s.conns
  {
    var l := s.conns[w].nloop;
    var t := Sweep(s, q, l, w, 0);
    var d := t.workers[q][l];
    SetStatus(Link(SetWorkers(t, q, l, InsertAt(d, |d|, w)), w), w, WorkerWaitJob)
  }

  /** A new worker item unless the connection already has one. */
  function Enlist(s: State, q: nat, w: Connect, name: string): State
    requires w in s.conns && q < |s.lists|
  {
    var v := s.conns[w];
    if v.item.Some? then s
    else
      var t := if v.workerMode || v.noid || v.status == WorkerWaitJob then PushItem(s, w, q) else s;
      if !v.workerMode && v.noid then Upd(t, w, t.conns[w].(subName := name)) else t
  }

  function StripSlash(name: string): string {
    if name != "" && name[0] == '/' then name[1..] else name
  }

  lemma TakeWf(s: State, q: nat, l: nat, i: nat, w: Connect)
    requires Wf(s) && q < |s.clients| && l < |s.clients[q]| && i < |s.clients[q][l]| && w in s.conns
    ensures SameFrame(s, Take(s, q, l, i, w))
  {
    hide WorkersLive, ListsLive, WaitLive, ConnsLive;
    EraseMessageWf(s, q, l, i);
    assert MsgLive(s.clients[q][l][i], s.conns.Keys);
    var t := EraseMessage(s, q, l, i);
    hide Wf, Grounded, ConnsLive;
    if s.clients[q][l][i].conn.None? {
      TakeAsyncWf(t, w, s.clients[q][l][i]);
    } else {
      TakeSyncWf(t, w, s.clients[q][l][i].conn.value);
    }
  }

  lemma TakeAsyncWf(t: State, w: Connect, m: Msg)
    requires Wf(t) && w in t.conns
    ensures SameFrame(t, TakeAsync(t, w, m))
  {
    hide WorkersLive, ClientsLive, ListsLive, WaitLive;
    var v := Served(t.conns[w], StatusAfterAsync(t.conns[w]), AsyncTask(JobOf(m)));
    UpdWf(t, w, v);
    HistoryWf(Upd(t, w, v), t.stamp, t.accepted, t.handed + multiset{JobOf(m)});
  }

  lemma TakeSyncWf(t: State, w: Connect, c: Connect)
    requires Wf(t) && w in t.conns && c in t.conns
    ensures SameFrame(t, TakeSync(t, w, c))
  {
    hide WorkersLive, ClientsLive, ListsLive, WaitLive, ConnsLive;
    var v, u := t.conns[w], t.conns[c];
    ConnIsLive(t, w);
    ConnIsLive(t, c);
    hide Wf, SameFrame, Grounded, ConnsLive;
    if v.noid {
      Upd2Wf(t, w, ServedNoid(v, c, Task(u.name, u.body)), c, Picked(u, if v.failOnDisconnect then 1 else 0));
    } else {
      var vw, vc := ServedWithId(v, c, TaskWithId(u.id, u.name, u.body)), Picked(u, LinksGiven(v));
      Upd2Wf(t, w, vw, c, vc);
      SameFrameAddWait(t, Upd2(t, w, vw, c, vc), u.id, c);
    }
  }

  lemma SameFrameAddWait(s: State, t: State, id: string, c: Connect)
    requires SameFrame(s, t) && c in s.conns
    ensures SameFrame(s, t.(wait := t.wait[id := c]))
  {
    hide Wf, Grounded, ConnsLive;
    AddWaitWf(t, id, c);
  }

  lemma ParkWf(s: State, q: nat, w: Connect)
    requires Wf(s) && q < |s.workers| && w in s.conns
    ensures SameFrame(s, Park(s, q, w))
  {
    var l := s.conns[w].nloop;
    var t := Sweep(s, q, l, w, 0);
    var d := t.workers[q][l];
    SetWorkersWf(t, q, l, InsertAt(d, |d|, w));
    hide Wf, Grounded, ConnsLive;
    LinkWf(SetWorkers(t, q, l, InsertAt(d, |d|, w)), w);
    SetStatusWf(Link(SetWorkers(t, q, l, InsertAt(d, |d|, w)), w), w, WorkerWaitJob);
  }

  lemma EnlistWf(s: State, q: nat, w: Connect, name: string)
    requires Wf(s) && w in s.conns && q < |s.lists|
    ensures SameFrame(s, Enlist(s, q, w, name))
  {
    PushItemWf(s, w, q);
    hide Wf, Grounded, ConnsLive;
    var v := s.conns[w];
    var t := if v.workerMode || v.noid || v.status == WorkerWaitJob then PushItem(s, w, q) else s;
    SubNameWf(t, w, name);
  }

  lemma SubNameWf(s: State, w: Connect, name: string)
    requires Wf(s) && w in s.conns
    ensures SameFrame(s, Upd(s, w, s.conns[w].(subName := name)))
  {
    UpdWf(s, w, s.conns[w].(subName := name));
  }

  datatype Added = Added(s: State, taken: bool)

  /** Opens the queue, gives the worker an id, and unlists a worker that moves to another name. */
  function Prepare(s: State, w: Connect, name: string, rnd: Entropy): (t: State)
    requires Wf(s) && w in s.conns
    ensures Wf(t) && t.conns.Keys == s.conns.Keys && t.threads == s.threads
    ensures |t.lists| == |OpenQueue(s, name).lists|
  {
    OpenQueueWf(s, name);
    var a := OpenQueue(s, name);
    ResolveConnectionIdWf(a, w, rnd);
    var b := ResolveConnectionId(a, w, rnd);
    PopItemWf(b, w);
    if !b.conns[w].workerMode && b.conns[w].subName != name then PopItem(b, w) else b
  }

  /** _add_worker for one queue name: `taken` tells that the worker got a job. */
  function AddWorker(s: State, w: Connect, rawName: string, rnd: Entropy): (r: Added)
    requires Wf(s) && w in s.conns
    ensures Wf(r.s) && r.s.conns.Keys == s.conns.Keys && r.s.threads == s.threads
  {
    var name := StripSlash(rawName);
    var q := OpenedQueue(s, name);
    Serve(Prepare(s, w, name, rnd), q, w, name, rnd)
  }

  function Serve(d: State, q: nat, w: Connect, name: string, rnd: Entropy): (r: Added)
    requires Wf(d) && w in d.conns && q < |d.lists|
    ensures SameFrame(d, r.s)
  {
    hide WorkersLive, ClientsLive, ListsLive, WaitLive, FindMessage, Take, Park, Enlist;
    match FindMessage(d, q, d.conns[w].nloop, w, -1, rnd)
    case FoundMessage(t, l, i) =>
      TakeWf(t, q, l, i, w);
      EnlistWf(Take(t, q, l, i, w), q, w, name);
      Added(Enlist(Take(t, q, l, i, w), q, w, name), true)
    case NoMessage(t) =>
      ParkWf(t, q, w);
      EnlistWf(Park(t, q, w), q, w, name);
      Added(Enlist(Park(t, q, w), q, w, name), false)
  }

  /** The queue names in a list separated by commas or blanks. */
  function SplitNames(names: string, start: nat, i: nat): (r: seq<string>)
    requires start <= i <= |names|
    ensures start < |names| ==> r != []
    decreases |names| - i
  {
    if i == |names| then (if start < |names| then [names[start..]] else [])
    else if names[i] == ',' || names[i] == ' ' then [names[start..i]] + SplitNames(names, i + 1, i + 1)
    else SplitNames(names, start, i + 1)
  }

  /** The worker registers under each name in turn until one of the queues has a job for it. */
  function AddWorkers(s: State, w: Connect, names: seq<string>, rnd: Entropy): (t: State)
    requires Wf(s) && w in s.conns
    ensures Wf(t) && t.conns.Keys == s.conns.Keys && t.threads == s.threads
    decreases |names|
  {
    hide AddWorker, Wf, Grounded, ConnsLive;
    if names == [] then s
    else
      var r := AddWorker(s, w, names[0], rnd);
      if r.taken then r.s else AddWorkers(r.s, w, names[1..], rnd)
  }
}
