/** client_request: a call looks for a ready worker, and waits in the queue if there is none. */
module ClientRequests {
  import opened Connections
  import opened Deques
  import opened Names
  import opened BrokerState
  import opened Common

  datatype WorkerScan =
    | FoundWorker(s: State, l: nat, i: nat)
    | NoWorker(s: State)

  ghost predicate ScanOk(s: State, q: nat, r: WorkerScan) {
    && SameFrame(s, r.s)
    && (r.FoundWorker? ==> q < |r.s.workers| && r.l < r.s.threads && r.i < |r.s.workers[q][r.l]|)
  }

  /** Erases every suitable entry it passes; stops at the first one whose worker is ready. */
  function ScanWorkers(s: State, q: nat, l: nat, required: string, i: nat): (r: WorkerScan)
    requires Wf(s) && q < |s.workers| && l < s.threads && i <= |s.workers[q][l]|
    ensures ScanOk(s, q, r)
    decreases |s.workers[q][l]| - i
  {
    var d := s.workers[q][l];
    if i >= |d| then NoWorker(s)
    else if !Suits(required, s.conns[d[i]].connectionId) then ScanWorkers(s, q, l, required, i + 1)
    else if Ready(s.conns[d[i]]) then FoundWorker(s, l, i)
    else
      EraseWorkerWf(s, q, l, i);
      ScanWorkers(EraseWorker(s, q, l, i), q, l, required, i)
  }

  function FindWorker(s: State, q: nat, local: nat, required: string, index: int): (r: WorkerScan)
    requires Wf(s) && q < |s.workers| && local < s.threads && -1 <= index
    ensures ScanOk(s, q, r)
    decreases s.threads - index
  {
    if index >= s.threads then NoWorker(s)
    else if index == local then FindWorker(s, q, local, required, index + 1)
    else
      match ScanWorkers(s, q, LoopAt(index, local), required, 0)
      case FoundWorker(t, l, i) => FoundWorker(t, l, i)
      case NoWorker(t) => FindWorker(t, q, local, required, index + 1)
  }

  /** client_request once a ready worker has been found at position i of loop l. */
  function Dispatch(s: State, q: nat, l: nat, i: nat, c: Connect, name: string, rnd: Entropy): State
    requires Wf(s) && q < |s.workers| && l < s.threads && i < |s.workers[q][l]| && c in s.conns
  {
    var w := s.workers[q][l][i];
    EraseWorkerWf(s, q, l, i);
    var t := EraseWorker(s, q, l, i);
    if t.conns[c].noResponse then DispatchAsync(t, w, c, name)
    else if t.conns[w].noid then DispatchLinked(t, w, c, name)
    else
      ResolveIdWf(t, c, rnd);
      var u := ResolveId(t, c, rnd);
      if u.conns[c].id in u.wait then Rollback(u, q, w, c)
      else DispatchWithId(u, w, c, name)
  }

  function DispatchAsync(t: State, w: Connect, c: Connect, name: string): State
    requires w in t.conns && c in t.conns
  {
    var v, u := t.conns[w], t.conns[c];
    var job := Job(t.stamp, name, u.body);
    Recorded(Upd2(t, w, Served(v, StatusAfterAsync(v), AsyncTask(job)), c, Told(u, AsyncAccepted)), job)
  }

  /** A job that is accepted and handed over at the same time. */
  function Recorded(s: State, job: Job): State {
    s.(stamp := s.stamp + 1, accepted := s.accepted + multiset{job}, handed := s.handed + multiset{job})
  }

  /** The worker points at the client until it sends the result. */
  function DispatchLinked(t: State, w: Connect, c: Connect, name: string): State
    requires w in t.conns && c in t.conns
  {
    var u := t.conns[c];
    Upd2(t, w, ServedLinked(t.conns[w], c, Task(name, u.body)), c, Called(u, 1))
  }

  /** The request id is taken: the worker goes back to the front of its own deque. */
  function Rollback(u: State, q: nat, w: Connect, c: Connect): State
    requires Wf(u) && q < |u.workers| && w in u.conns && c in u.conns
  {
    var l := u.conns[w].nloop;
    var a := Link(u, w);
    Send(SetWorkers(a, q, l, InsertAt(u.workers[q][l], 0, w)), c, CollisionId)
  }

  /** The client waits under its id; a worker that must not vanish silently points at it as well. */
  function DispatchWithId(u: State, w: Connect, c: Connect, name: string): State
    requires w in u.conns && c in u.conns
  {
    var v, x := u.conns[w], u.conns[c];
    AddWait(Upd2(u, w, ServedWithId(v, c, TaskWithId(x.id, name, x.body)), c, Called(x, LinksGiven(v))), x.id, c)
  }

  /** The position behind every message of at least this priority, scanning from the back. */
  function Slot(d: seq<Msg>, priority: int, n: nat): (i: nat)
    requires n <= |d|
    ensures i <= n
  {
    if n == 0 then 0
    else if priority <= d[n - 1].priority then n
    else Slot(d, priority, n - 1)
  }

  /** The message lands in the deque of the client's own loop, behind its equals. */
  function QueueMessage(s: State, q: nat, l: nat, m: Msg): State
    requires q < |s.clients| && l < |s.clients[q]|
  {
    var d := s.clients[q][l];
    NextStamp(SetClients(s, q, l, InsertAt(d, Slot(d, m.priority, |d|), m)))
  }

  function NextStamp(s: State): State {
    s.(stamp := s.stamp + 1)
  }

  /** A job that is accepted and queued. */
  function Noted(s: State, job: Job): State {
    s.(accepted := s.accepted + multiset{job})
  }

  function AsyncMessage(s: State, v: Conn, name: string): Msg {
    Msg(s.stamp, v.priority, v.requiredWorker, None, name, v.body)
  }

  function SyncMessage(s: State, c: Connect, v: Conn): Msg {
    Msg(s.stamp, v.priority, v.requiredWorker, Some(c), "", "")
  }

  function Enqueue(s: State, q: nat, c: Connect, name: string): State
    requires Wf(s) && q < |s.clients| && c in s.conns
  {
    var v := s.conns[c];
    if v.ifPresent && s.lists[q] == [] then Send(s, c, NoContent)
    else if v.noResponse then
      var m := AsyncMessage(s, v, name);
      Noted(QueueMessage(Upd(s, c, Told(v, AsyncAccepted).(requiredWorker := "", body := "")), q, v.nloop, m), JobOf(m))
    else
      QueueMessage(Upd(s, c, Called(v, 1).(requiredWorker := "", name := name)), q, v.nloop, SyncMessage(s, c, v))
  }

  /** The call looks for a worker in queue q and waits there if it finds none. */
  function Seek(s: State, q: nat, c: Connect, name: string, rnd: Entropy): State
    requires Wf(s) && c in s.conns && q < |s.lists|
  {
    SeekFor(s, q, c, name, s.conns[c].nloop, s.conns[c].requiredWorker, rnd)
  }

  function SeekFor(s: State, q: nat, c: Connect, name: string, local: nat, required: string, rnd: Entropy): State
    requires Wf(s) && c in s.conns && q < |s.lists| && local < s.threads
  {
    match FindWorker(s, q, local, required, -1)
    case NoWorker(t) => Enqueue(t, q, c, name)
    case FoundWorker(t, l, i) => Dispatch(t, q, l, i, c, name, rnd)
  }

  function CallMade(s: State, c: Connect): (t: State)
    requires Wf(s) && c in s.conns
    ensures SameFrame(s, t)
  {
    UpdWf(s, c, s.conns[c].(calls := s.conns[c].calls + 1));
    Upd(s, c, s.conns[c].(calls := s.conns[c].calls + 1))
  }

  function ClientRequest(s: State, c: Connect, name: string, rnd: Entropy): State
    requires Wf(s) && c in s.conns
  {
    var s1 := CallMade(s, c);
    match FoundQueue(s1, name)
    case None => Send(s1, c, NotFound)
    case Some(q) => Seek(s1, q, c, name, rnd)
  }
}
