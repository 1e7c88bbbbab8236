/** add_worker, the janitor and the runs keep the deques orderly. */
module OrderWorkers {
  import opened Connections
  import opened Deques
  import opened Names
  import opened BrokerState
  import opened Common
  import opened References
  import opened Ledger
  import opened Invariants
  import opened ClientRequests
  import opened WorkerRequests
  import opened WorkerProofs
  import opened Sessions
  import opened Order
  import opened OrderProofs

  /** No message of this deque suits the worker. */
  predicate Idling(s: State, q: nat, l: nat, id: string) {
    q < |s.clients| && l < |s.clients[q]| ==>
      forall i :: 0 <= i < |s.clients[q][l]| ==> !Suits(s.clients[q][l][i].required, id)
  }

  /** A scan of one message deque leaves every other deque alone. */
  ghost predicate ScannedClients(s: State, t: State, q: nat, l: nat) {
    && t.workers == s.workers && |t.clients| == |s.clients|
    && (forall q' :: 0 <= q' < |s.clients| ==> |t.clients[q']| == |s.clients[q']|)
    && (forall q', l' :: 0 <= q' < |s.clients| && 0 <= l' < |s.clients[q']| && (q' != q || l' != l) ==>
          t.clients[q'][l'] == s.clients[q'][l'])
  }

  lemma ScannedClientsTrans(s: State, t: State, u: State, q: nat, l: nat)
    requires ScannedClients(s, t, q, l) && ScannedClients(t, u, q, l)
    ensures ScannedClients(s, u, q, l)
  {
  }

  lemma DropMessageOrderly(s: State, q: nat, l: nat, i: nat, rnd: Entropy)
    requires Orderly(s) && Wf(s) && q < |s.clients| && l < s.threads && l < |s.clients[q]| && i < |s.clients[q][l]|
    requires s.clients[q][l][i].conn.Some? && s.clients[q][l][i].conn.value in s.conns
    ensures Orderly(DropMessage(s, q, l, i, rnd))
  {
    hide Orderly, Aside, Wf, EraseMessage, ResolveId, Grounded, ConnsLive;
    var c := s.clients[q][l][i].conn.value;
    EraseMessageOrderly(s, q, l, i);
    ResolveIdAside(s, c, rnd);
    ResolveIdWf(s, c, rnd);
    var t := ResolveId(s, c, rnd);
    AsideOrderly(s, t);
    ResolvedClients(s, c, rnd);
    EraseMessageOrderly(t, q, l, i);
    EraseMessageWf(t, q, l, i);
    var u := EraseMessage(t, q, l, i);
    TasksAppend(u.conns[c].out, CollisionId);
    hide Tasks;
    UpdAside(u, c, Served(u.conns[c], Net, CollisionId));
    AsideOrderly(u, Upd(u, c, Served(u.conns[c], Net, CollisionId)));
  }

  lemma ResolvedClients(s: State, c: Connect, rnd: Entropy)
    requires c in s.conns
    ensures ResolveId(s, c, rnd).clients == s.clients && ResolveId(s, c, rnd).workers == s.workers
    ensures ResolveId(s, c, rnd).conns.Keys == s.conns.Keys
  {
    hide ResolvedId;
  }

  lemma DropScanned(s: State, q: nat, l: nat, i: nat, rnd: Entropy)
    requires Wf(s) && q < |s.clients| && l < s.threads && l < |s.clients[q]| && i < |s.clients[q][l]|
    requires s.clients[q][l][i].conn.Some? && s.clients[q][l][i].conn.value in s.conns
    ensures ScannedClients(s, DropMessage(s, q, l, i, rnd), q, l)
    ensures DropMessage(s, q, l, i, rnd).clients[q][l] == RemoveAt(s.clients[q][l], i)
  {
    hide Wf, Unlink, Grounded, ConnsLive;
    DropWorkers(s, q, l, i, rnd);
    hide DropMessage;
  }

  lemma DropWorkers(s: State, q: nat, l: nat, i: nat, rnd: Entropy)
    requires Wf(s) && q < |s.clients| && l < s.threads && l < |s.clients[q]| && i < |s.clients[q][l]|
    requires s.clients[q][l][i].conn.Some? && s.clients[q][l][i].conn.value in s.conns
    ensures DropMessage(s, q, l, i, rnd).workers == s.workers
  {
    hide Wf, Grounded, ConnsLive;
  }

  /** The scan for a message: the first suitable live one, or none that suits is left. */
  lemma {:induction false} ScanMessagesOrderly(s: State, q: nat, l: nat, w: Connect, i: nat, rnd: Entropy)
    requires Orderly(s) && Wf(s) && SaneBut(s, w) && Idle(s.conns[w])
    requires q < |s.clients| && l < s.threads && i <= |s.clients[q][l]|
    requires forall k :: 0 <= k < i ==> !Suits(s.clients[q][l][k].required, s.conns[w].connectionId)
    ensures var r := ScanMessages(s, q, l, w, i, rnd);
      && Orderly(r.s) && ScannedClients(s, r.s, q, l)
      && (r.NoMessage? ==> Idling(r.s, q, l, s.conns[w].connectionId))
      && (r.FoundMessage? ==>
            && r.l == l && r.i < |r.s.clients[q][l]|
            && Suits(r.s.clients[q][l][r.i].required, s.conns[w].connectionId)
            && forall k :: 0 <= k < r.i ==> !Suits(r.s.clients[q][l][k].required, s.conns[w].connectionId))
    decreases |s.clients[q][l]| - i
  {
    hide Orderly, Grounded, Balanced, ConnOk, DropMessage, Idle, ConnsLive, Suits, SaneBut,
         ResolveId;
    KnownToBe(s, w);
    var d := s.clients[q][l];
    if i < |d| {
      MessageOfWf(s, q, l, i);
      if !Suits(d[i].required, s.conns[w].connectionId) {
        ScanMessagesOrderly(s, q, l, w, i + 1, rnd);
      } else if !Takeable(s, d[i], w, rnd) {
        DropMessageOrderly(s, q, l, i, rnd);
        DropScanned(s, q, l, i, rnd);
        DropMessageSane(s, q, l, i, w, rnd);
        var t := DropMessage(s, q, l, i, rnd);
        ScanMessagesOrderly(t, q, l, w, i, rnd);
        ScannedClientsTrans(s, t, ScanMessages(t, q, l, w, i, rnd).s, q, l);
      } else if d[i].conn.Some? && !s.conns[w].noid {
        ResolvedOrderly(s, q, l, d[i].conn.value, rnd);
      }
    }
  }

  lemma ResolvedOrderly(s: State, q: nat, l: nat, c: Connect, rnd: Entropy)
    requires Orderly(s) && Wf(s) && c in s.conns
    ensures var t := ResolveId(s, c, rnd);
      Orderly(t) && ScannedClients(s, t, q, l) && t.clients == s.clients && t.conns.Keys == s.conns.Keys
  {
    hide Orderly, Aside, Wf, Grounded, ConnsLive;
    ResolveIdAside(s, c, rnd);
    ResolvedClients(s, c, rnd);
    AsideOrderly(s, ResolveId(s, c, rnd));
    hide ResolveId;
  }

  lemma KnownToBe(s: State, w: Connect)
    requires SaneBut(s, w)
    ensures w in s.conns
  {
  }

  lemma StaysIdling(s: State, t: State, q: nat, l: nat, l': nat, id: string)
    requires ScannedClients(s, t, q, l) && l' != l && Idling(s, q, l', id)
    ensures Idling(t, q, l', id)
  {
  }

  lemma {:induction false} FindMessageOrderly(s: State, q: nat, local: nat, w: Connect, index: int, rnd: Entropy)
    requires Orderly(s) && Wf(s) && SaneBut(s, w) && Idle(s.conns[w])
    requires q < |s.clients| && local < s.threads && -1 <= index
    requires forall l: nat :: l < s.threads && Visited(l, index, local) ==> Idling(s, q, l, s.conns[w].connectionId)
    ensures var r := FindMessage(s, q, local, w, index, rnd);
      && Orderly(r.s)
      && (r.NoMessage? ==> forall l: nat :: l < s.threads ==> Idling(r.s, q, l, s.conns[w].connectionId))
      && (r.FoundMessage? ==>
            && r.i < |r.s.clients[q][r.l]|
            && Suits(r.s.clients[q][r.l][r.i].required, s.conns[w].connectionId)
            && forall k :: 0 <= k < r.i ==> !Suits(r.s.clients[q][r.l][k].required, s.conns[w].connectionId))
    decreases s.threads - index
  {
    hide Orderly, Grounded, Balanced, ConnOk, Idle, Idling;
    if index < s.threads {
      if index == local {
        FindMessageOrderly(s, q, local, w, index + 1, rnd);
      } else {
        var l := LoopAt(index, local);
        ScanMessagesOrderly(s, q, l, w, 0, rnd);
        ScanMessagesSane(s, q, l, w, 0, rnd);
        match ScanMessages(s, q, l, w, 0, rnd)
        case FoundMessage(t, l', i) =>
        case NoMessage(t) =>
          forall l': nat | l' < t.threads && Visited(l', index + 1, local)
            ensures Idling(t, q, l', s.conns[w].connectionId)
          {
            if l' != l {
              StaysIdling(s, t, q, l, l', s.conns[w].connectionId);
            }
          }
          FindMessageOrderly(t, q, local, w, index + 1, rnd);
      }
    }
  }

  // Taking a job

  lemma TakenJob(s: State, q: nat, l: nat, i: nat, w: Connect, v: Conn)
    requires Orderly(s) && q < |s.clients| && l < |s.clients[q]| && i < |s.clients[q][l]|
    requires s.clients[q][l][i].conn.None? && w in s.conns
    requires v.nloop == s.conns[w].nloop && v.connectionId == s.conns[w].connectionId
    requires Tasks(v.out) == Tasks(s.conns[w].out) + multiset{JobOf(s.clients[q][l][i])}
    ensures Orderly(Upd(EraseMessage(s, q, l, i), w, v).(handed := s.handed + multiset{JobOf(s.clients[q][l][i])}))
  {
    hide Registered, Unmatched, Jobs, Flat, Tasks;
    RemoveMessage(s.workers, s.clients, s.conns, q, l, i);
    SameIdRegistered(s.workers, SetAt(s.clients, q, l, RemoveAt(s.clients[q][l], i)), s.conns, w, v);
    RemoveSorted(s.clients[q][l], i, s.stamp);
    SetSorted(s.clients, q, l, RemoveAt(s.clients[q][l], i), s.stamp, s.stamp);
    hide Sorted;
    HandOver(s.conns, s.buried, s.handed, w, v, JobOf(s.clients[q][l][i]));
    hide Delivered, Stamped;
    JobsRemoved(s.clients, q, l, i);
    OneJob(s.clients[q][l][i]);
  }

  lemma TakeOrderly(s: State, q: nat, l: nat, i: nat, w: Connect)
    requires Orderly(s) && Wf(s) && q < |s.clients| && l < |s.clients[q]| && i < |s.clients[q][l]| && w in s.conns
    requires s.clients[q][l][i].conn.Some? ==>
      s.clients[q][l][i].conn.value in s.conns && s.clients[q][l][i].conn.value != w
    ensures Orderly(Take(s, q, l, i, w))
  {
    hide Orderly, Beside, Wf, Grounded, ConnsLive;
    EraseMessageWf(s, q, l, i);
    var m := s.clients[q][l][i];
    var t := EraseMessage(s, q, l, i);
    if m.conn.None? {
      TasksAppend(s.conns[w].out, AsyncTask(JobOf(m)));
      hide Tasks;
      TakenJob(s, q, l, i, w, Served(s.conns[w], StatusAfterAsync(s.conns[w]), AsyncTask(JobOf(m))));
    } else {
      EraseMessageOrderly(s, q, l, i);
      TakeSyncBeside(t, w, m.conn.value);
      BesideOrderly(t, TakeSync(t, w, m.conn.value));
    }
  }

  lemma TakeSyncBeside(t: State, w: Connect, c: Connect)
    requires w in t.conns && c in t.conns && w != c
    ensures Beside(t, TakeSync(t, w, c))
  {
    hide Beside, Tasks;
    if t.conns[w].noid {
      TakeNoidBeside(t, w, c);
    } else {
      TakeIdBeside(t, w, c);
    }
  }

  lemma TakeNoidBeside(t: State, w: Connect, c: Connect)
    requires w in t.conns && c in t.conns && w != c && t.conns[w].noid
    ensures Beside(t, TakeSync(t, w, c))
  {
    hide Beside, Tasks;
    var v, u := t.conns[w], t.conns[c];
    TasksAppend(v.out, Task(u.name, u.body));
    ServedBeside(t, w, ServedNoid(v, c, Task(u.name, u.body)), c,
                Picked(u, if v.failOnDisconnect then 1 else 0), t.wait);
  }

  lemma TakeIdBeside(t: State, w: Connect, c: Connect)
    requires w in t.conns && c in t.conns && w != c && !t.conns[w].noid
    ensures Beside(t, TakeSync(t, w, c))
  {
    hide Beside, Tasks;
    var v, u := t.conns[w], t.conns[c];
    TasksAppend(v.out, TaskWithId(u.id, u.name, u.body));
    ServedBeside(t, w, ServedWithId(v, c, TaskWithId(u.id, u.name, u.body)), c,
                Picked(u, LinksGiven(v)), t.wait[u.id := c]);
  }

  // Waiting for a job

  predicate Absent(d: seq<Connect>, n: nat, w: Connect) {
    forall k :: 0 <= k < n && k < |d| ==> d[k] != w
  }

  lemma {:induction false} SweepOrderly(s: State, q: nat, l: nat, w: Connect, i: nat)
    requires Orderly(s) && Wf(s) && q < |s.workers| && l < s.threads && i <= |s.workers[q][l]|
    requires Absent(s.workers[q][l], i, w)
    ensures var t := Sweep(s, q, l, w, i);
      Orderly(t) && ScannedDeque(s, t, q, l) && w !in t.workers[q][l]
    decreases |s.workers[q][l]| - i
  {
    hide Orderly, Grounded, ScannedDeque, Unlink;
    var d := s.workers[q][l];
    ScannedRefl(s, q, l);
    if i < |d| {
      GroundedEntry(s, q, l, i);
      if s.conns[d[i]].closed || d[i] == w {
        EraseWorkerWf(s, q, l, i);
        EraseWorkerOrderly(s, q, l, i);
        EraseScanned(s, q, l, i);
        ErasedWorkers(s, q, l, i);
        var t := EraseWorker(s, q, l, i);
        hide EraseWorker;
        assert Absent(t.workers[q][l], i, w);
        SweepOrderly(t, q, l, w, i);
        ScannedTrans(s, t, Sweep(t, q, l, w, i), q, l);
      } else {
        SweepOrderly(s, q, l, w, i + 1);
      }
    }
  }

  /** A new entry at the end, for a worker that is not in the deque and suits no message of the queue. */
  lemma AppendEntry(workers: Deques<Connect>, clients: Deques<Msg>, conns: map<Connect, Conn>, q: nat, l: nat,
                    w: Connect)
    requires Registered(workers, conns) && Unmatched(workers, clients, conns)
    requires q < |workers| && l < |workers[q]| && w !in workers[q][l] && Entry(conns, w, l)
    requires q < |clients| ==>
      forall k, j :: 0 <= k < |clients[q]| && 0 <= j < |clients[q][k]| ==> Apart(conns, w, clients[q][k][j])
    ensures var d := workers[q][l];
      var t := SetAt(workers, q, l, InsertAt(d, |d|, w));
      Registered(t, conns) && Unmatched(t, clients, conns)
  {
    hide Entry, Apart;
    var d := workers[q][l];
    assert InsertAt(d, |d|, w) == d + [w];
  }

  lemma ParkOrderly(s: State, q: nat, w: Connect)
    requires Orderly(s) && Wf(s) && q < |s.workers| && w in s.conns && s.conns[w].connectionId != ""
    requires forall l: nat :: l < s.threads ==> Idling(s, q, l, s.conns[w].connectionId)
    ensures Orderly(Park(s, q, w))
  {
    ConnIsLive(s, w);
    hide Orderly, Grounded, Idling, Sweep;
    var l := s.conns[w].nloop;
    SweepOrderly(s, q, l, w, 0);
    var t := Sweep(s, q, l, w, 0);
    assert forall k: nat :: k < t.threads ==> Idling(t, q, k, t.conns[w].connectionId) by {
      SameIdling(s, t, q, l, s.conns[w].connectionId);
    }
    ParkSweptOrderly(t, q, l, w);
  }

  lemma SameIdling(s: State, t: State, q: nat, l: nat, id: string)
    requires ScannedDeque(s, t, q, l)
    ensures forall k: nat :: Idling(s, q, k, id) ==> Idling(t, q, k, id)
  {
  }

  lemma ParkSweptOrderly(t: State, q: nat, l: nat, w: Connect)
    requires Orderly(t) && Wf(t) && q < |t.workers| && w in t.conns && l == t.conns[w].nloop && l < |t.workers[q]|
    requires w !in t.workers[q][l] && t.conns[w].connectionId != ""
    requires forall k: nat :: k < t.threads ==> Idling(t, q, k, t.conns[w].connectionId)
    ensures var d := t.workers[q][l];
      Orderly(SetStatus(Link(SetWorkers(t, q, l, InsertAt(d, |d|, w)), w), w, WorkerWaitJob))
  {
    var d := t.workers[q][l];
    hide Grounded, Registered, Unmatched, Sorted, Jobs, Flat;
    forall k, j | 0 <= k < |t.clients[q]| && 0 <= j < |t.clients[q][k]| ensures Apart(t.conns, w, t.clients[q][k][j]) {
      assert Idling(t, q, k, t.conns[w].connectionId);
    }
    AppendEntry(t.workers, t.clients, t.conns, q, l, w);
    var a := SetWorkers(t, q, l, InsertAt(d, |d|, w));
    ParkedBeside(a, w);
    BesideOrderly(a, SetStatus(Link(a, w), w, WorkerWaitJob));
  }

  lemma ParkedBeside(a: State, w: Connect)
    requires w in a.conns
    ensures Beside(a, SetStatus(Link(a, w), w, WorkerWaitJob))
  {
    hide IdsKept, Hushed;
    var v := a.conns[w].(link := a.conns[w].link + 1);
    UpdBeside(a, w, v);
    UpdBeside(Link(a, w), w, v.(status := WorkerWaitJob));
    BesideTrans(a, Link(a, w), SetStatus(Link(a, w), w, WorkerWaitJob));
  }

  lemma BesideTrans(s: State, t: State, u: State)
    requires Beside(s, t) && Beside(t, u)
    ensures Beside(s, u)
  {
  }

  lemma EnlistAside(s: State, q: nat, w: Connect, name: string)
    requires w in s.conns && q < |s.lists|
    ensures Aside(s, Enlist(s, q, w, name))
  {
    hide IdsKept, Hushed;
    AsideRefl(s);
    var v := s.conns[w];
    if v.item.None? {
      PushItemAside(s, w, q);
      var t := if v.workerMode || v.noid || v.status == WorkerWaitJob then PushItem(s, w, q) else s;
      AsideKeys(s, t);
      UpdAside(t, w, t.conns[w].(subName := name));
      AsideTrans(s, t, Upd(t, w, t.conns[w].(subName := name)));
    }
  }

  lemma PushItemAside(s: State, w: Connect, q: nat)
    requires w in s.conns && q < |s.lists|
    ensures Aside(s, PushItem(s, w, q))
  {
    PushedConns(s, w, q);
    UpdAside(s, w, Listed(s.conns[w], q));
    assert PushItem(s, w, q) == s.(conns := PushItem(s, w, q).conns, lists := PushItem(s, w, q).lists);
    hide PushItem, IdsKept, Hushed;
  }

  // Opening the queue

  lemma CreateQueueOrderly(s: State, name: string)
    requires Orderly(s) && |s.workers| == |s.clients|
    ensures Orderly(CreateQueue(s, name))
  {
    var t := CreateQueue(s, name);
    NewLines(s, name);
    var cline := t.clients[|s.clients|];
    assert t.clients == s.clients + [cline];
    FlatNewLine(s.clients, cline);
    hide Registered, Unmatched, Sorted, Jobs, Flat;
  }

  lemma NewLines(s: State, name: string)
    requires Orderly(s) && |s.workers| == |s.clients|
    ensures var t := CreateQueue(s, name);
      Registered(t.workers, t.conns) && Unmatched(t.workers, t.clients, t.conns) && Sorted(t.clients, t.stamp)
  {
    hide Entry, Apart, Precedes, Accounted;
  }

  lemma PrepareOrderly(s: State, w: Connect, name: string, rnd: Entropy)
    requires Orderly(s) && Wf(s) && w in s.conns
    ensures Orderly(Prepare(s, w, name, rnd)) && Prepare(s, w, name, rnd).conns[w].connectionId != ""
  {
    hide Orderly, Aside, Grounded, PopItem;
    CreateQueueOrderly(s, name);
    OpenQueueWf(s, name);
    var a := OpenQueue(s, name);
    hide OpenQueue;
    ResolveConnectionIdAside(a, w, rnd);
    ResolveConnectionIdWf(a, w, rnd);
    var b := ResolveConnectionId(a, w, rnd);
    AsideOrderly(a, b);
    hide ResolveConnectionId;
    ConnIsLive(b, w);
    PopItemAside(b, w);
    AsideOrderly(b, PopItem(b, w));
    KeepsId(b, PopItem(b, w), w);
  }

  lemma KeepsId(s: State, t: State, w: Connect)
    requires Aside(s, t) && w in s.conns
    ensures s.conns[w].connectionId != "" ==> w in t.conns && t.conns[w].connectionId == s.conns[w].connectionId
  {
  }

  lemma ResolveConnectionIdAside(s: State, w: Connect, rnd: Entropy)
    requires w in s.conns
    ensures Aside(s, ResolveConnectionId(s, w, rnd)) && ResolveConnectionId(s, w, rnd).conns[w].connectionId != ""
  {
    hide IdsKept, Hushed;
    AsideRefl(s);
    if s.conns[w].connectionId == "" {
      UpdAside(s, w, s.conns[w].(connectionId := GeneratedId(s.idIndex + 1, rnd)));
    }
  }

  lemma ServeOrderly(d: State, q: nat, w: Connect, name: string, rnd: Entropy)
    requires Orderly(d) && Wf(d) && SaneBut(d, w) && Idle(d.conns[w]) && q < |d.lists| && d.conns[w].connectionId != ""
    ensures Orderly(Serve(d, q, w, name, rnd).s)
  {
    hide Orderly, Aside, Balanced, ConnOk, Grounded, FindMessage, Take, Park, Enlist, Idling;
    ConnHome(d, w);
    FindMessageOrderly(d, q, d.conns[w].nloop, w, -1, rnd);
    FindMessageSane(d, q, d.conns[w].nloop, w, -1, rnd);
    match FindMessage(d, q, d.conns[w].nloop, w, -1, rnd)
    case FoundMessage(t, l, i) =>
      TakeOrderly(t, q, l, i, w);
      TakeWf(t, q, l, i, w);
      EnlistAside(Take(t, q, l, i, w), q, w, name);
      AsideOrderly(Take(t, q, l, i, w), Enlist(Take(t, q, l, i, w), q, w, name));
    case NoMessage(t) =>
      ParkOrderly(t, q, w);
      ParkWf(t, q, w);
      EnlistAside(Park(t, q, w), q, w, name);
      AsideOrderly(Park(t, q, w), Enlist(Park(t, q, w), q, w, name));
  }

  lemma AddWorkerOrderly(s: State, w: Connect, name: string, rnd: Entropy)
    requires Orderly(s) && Wf(s) && SaneBut(s, w) && Idle(s.conns[w])
    ensures Orderly(AddWorker(s, w, name, rnd).s)
  {
    hide Orderly, Balanced, ConnOk, Grounded, Idle, Serve, Prepare;
    PrepareOrderly(s, w, StripSlash(name), rnd);
    PrepareSane(s, w, StripSlash(name), rnd);
    ServeOrderly(Prepare(s, w, StripSlash(name), rnd), OpenedQueue(s, StripSlash(name)), w, StripSlash(name), rnd);
  }

  lemma {:induction false} AddWorkersOrderly(s: State, w: Connect, names: seq<string>, rnd: Entropy)
    requires Orderly(s) && Wf(s) && SaneBut(s, w) && Idle(s.conns[w])
    ensures Orderly(AddWorkers(s, w, names, rnd))
    decreases |names|
  {
    hide Orderly, Balanced, ConnOk, Grounded, Idle, AddWorker;
    if names != [] {
      AddWorkerOrderly(s, w, names[0], rnd);
      AddWorkerSane(s, w, names[0], rnd);
      var r := AddWorker(s, w, names[0], rnd);
      if !r.taken {
        AddWorkersOrderly(r.s, w, names[1..], rnd);
      }
    }
  }
}
