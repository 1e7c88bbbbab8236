/** Who hears a result, and which registrations break off, in every event. */
module Results {
  import opened Connections
  import opened Deques
  import opened Names
  import opened BrokerState
  import opened Common
  import opened ClientRequests
  import opened WorkerRequests
  import opened Sessions
  import opened Ledger
  import opened Invariants
  import opened SessionProofs
  import opened RequestProofs
  import LifeProofs
  import Departures
  import Leads

  predicate IsResult(r: Reply) {
    r.Answer? || r.AnswerWithId?
  }

  /** Replies were appended, none of them a result, and no registration broke off. */
  predicate Keeps(u: Conn, v: Conn) {
    && u.out <= v.out && v.spoilt == u.spoilt
    && (forall k :: |u.out| <= k < |v.out| ==> !IsResult(v.out[k]))
  }

  predicate Calm(a: map<Connect, Conn>, b: map<Connect, Conn>) {
    a.Keys == b.Keys && forall x :: x in a ==> Keeps(a[x], b[x])
  }

  lemma CalmTrans(a: map<Connect, Conn>, b: map<Connect, Conn>, c: map<Connect, Conn>)
    requires Calm(a, b) && Calm(b, c)
    ensures Calm(a, c)
  {
    forall x | x in a ensures Keeps(a[x], c[x]) {
      KeepsTrans(a[x], b[x], c[x]);
    }
  }

  lemma KeepsTrans(u: Conn, v: Conn, w: Conn)
    requires Keeps(u, v) && Keeps(v, w)
    ensures Keeps(u, w)
  {
  }

  // Small updates

  lemma UpdCalm(s: State, c: Connect, v: Conn)
    requires c in s.conns && Keeps(s.conns[c], v)
    ensures Calm(s.conns, Upd(s, c, v).conns)
  {
  }

  lemma UnlinkCalm(s: State, c: Connect)
    requires c in s.conns
    ensures Calm(s.conns, Unlink(s, c).conns)
  {
  }

  lemma SendCalm(s: State, c: Connect, r: Reply)
    requires c in s.conns && !IsResult(r)
    ensures Calm(s.conns, Send(s, c, r).conns)
  {
  }

  lemma StatusCalm(s: State, c: Connect, status: Status)
    requires c in s.conns
    ensures Calm(s.conns, SetStatus(s, c, status).conns)
  {
  }

  lemma ResolveIdCalm(s: State, c: Connect, rnd: Entropy)
    requires c in s.conns
    ensures Calm(s.conns, ResolveId(s, c, rnd).conns)
  {
    hide ResolvedId;
  }

  lemma EraseWorkerCalm(s: State, q: nat, l: nat, i: nat)
    requires q < |s.workers| && l < |s.workers[q]| && i < |s.workers[q][l]| && s.workers[q][l][i] in s.conns
    ensures Calm(s.conns, EraseWorker(s, q, l, i).conns)
  {
    hide Unlink, Calm;
    UnlinkCalm(SetWorkers(s, q, l, RemoveAt(s.workers[q][l], i)), s.workers[q][l][i]);
  }

  lemma CalmRefl(a: map<Connect, Conn>)
    ensures Calm(a, a)
  {
  }

  lemma EraseMessageCalm(s: State, q: nat, l: nat, i: nat)
    requires q < |s.clients| && l < |s.clients[q]| && i < |s.clients[q][l]| && MsgLive(s.clients[q][l][i], s.conns.Keys)
    ensures Calm(s.conns, EraseMessage(s, q, l, i).conns)
  {
    hide Unlink, Calm;
    CalmRefl(s.conns);
    var m := s.clients[q][l][i];
    if m.conn.Some? {
      UnlinkCalm(SetClients(s, q, l, RemoveAt(s.clients[q][l], i)), m.conn.value);
    }
  }

  lemma PopItemCalm(s: State, c: Connect)
    requires Wf(s) && c in s.conns
    ensures s.conns[c].item.Some? ==> s.conns[c].item.value < |s.lists|
    ensures Calm(s.conns, PopItem(s, c).conns)
  {
    ConnIsLive(s, c);
    hide Wf, Grounded, ConnsLive, Unlink, Without, Calm;
    CalmRefl(s.conns);
    var v := s.conns[c];
    if v.item.Some? {
      assert Keeps(v, v.(item := None));
      UpdCalm(s, c, v.(item := None));
      var a := Upd(s, c, v.(item := None));
      var q := v.item.value;
      var b := a.(lists := s.lists[q := Without(s.lists[q], c)]);
      assert c in a.conns;
      UnlinkCalm(b, c);
      CalmTrans(s.conns, b.conns, Unlink(b, c).conns);
    }
  }

  // Calls

  lemma {:induction false} ScanWorkersCalm(s: State, q: nat, l: nat, required: string, i: nat)
    requires Wf(s) && q < |s.workers| && l < s.threads && i <= |s.workers[q][l]|
    ensures Calm(s.conns, ScanWorkers(s, q, l, required, i).s.conns)
    decreases |s.workers[q][l]| - i
  {
    hide Grounded, Calm, EraseWorker;
    CalmRefl(s.conns);
    var d := s.workers[q][l];
    if i < |d| {
      RemoveWorkerWf(s, q, l, i);
      if !Suits(required, s.conns[d[i]].connectionId) {
        ScanWorkersCalm(s, q, l, required, i + 1);
      } else if !Ready(s.conns[d[i]]) {
        EraseWorkerWf(s, q, l, i);
        ErasedWorkers(s, q, l, i);
        EraseWorkerCalm(s, q, l, i);
        var t := EraseWorker(s, q, l, i);
        ScanWorkersCalm(t, q, l, required, i);
        CalmTrans(s.conns, t.conns, ScanWorkers(t, q, l, required, i).s.conns);
      }
    }
  }

  lemma {:induction false} FindWorkerCalm(s: State, q: nat, local: nat, required: string, index: int)
    requires Wf(s) && q < |s.workers| && local < s.threads && -1 <= index
    ensures Calm(s.conns, FindWorker(s, q, local, required, index).s.conns)
    decreases s.threads - index
  {
    hide Grounded, Calm, ScanWorkers;
    CalmRefl(s.conns);
    if index < s.threads {
      if index == local {
        FindWorkerCalm(s, q, local, required, index + 1);
      } else {
        ScanWorkersCalm(s, q, LoopAt(index, local), required, 0);
        match ScanWorkers(s, q, LoopAt(index, local), required, 0)
        case FoundWorker(t, l, i) =>
        case NoWorker(t) =>
          FindWorkerCalm(t, q, local, required, index + 1);
          CalmTrans(s.conns, t.conns, FindWorker(t, q, local, required, index + 1).s.conns);
      }
    }
  }

  /** Two connections after each other, even if they are one. */
  lemma TwoCalm(s: State, a: Connect, va: Conn, b: Connect, vb: Conn)
    requires a in s.conns && b in s.conns && Keeps(s.conns[a], va) && Keeps(s.conns[b], vb)
    ensures Calm(s.conns, Upd2(s, a, va, b, vb).conns)
  {
  }

  lemma DispatchAsyncCalm(t: State, w: Connect, c: Connect, name: string)
    requires w in t.conns && c in t.conns
    ensures Calm(t.conns, DispatchAsync(t, w, c, name).conns)
  {
    hide Calm;
    var v, u := t.conns[w], t.conns[c];
    TwoCalm(t, w, Served(v, StatusAfterAsync(v), AsyncTask(Job(t.stamp, name, u.body))), c, Told(u, AsyncAccepted));
  }

  lemma DispatchLinkedCalm(t: State, w: Connect, c: Connect, name: string)
    requires w in t.conns && c in t.conns
    ensures Calm(t.conns, DispatchLinked(t, w, c, name).conns)
  {
    hide Calm;
    TwoCalm(t, w, ServedLinked(t.conns[w], c, Task(name, t.conns[c].body)), c, Called(t.conns[c], 1));
  }

  lemma DispatchWithIdCalm(t: State, w: Connect, c: Connect, name: string)
    requires w in t.conns && c in t.conns
    ensures Calm(t.conns, DispatchWithId(t, w, c, name).conns)
  {
    hide Calm;
    var v, x := t.conns[w], t.conns[c];
    TwoCalm(t, w, ServedWithId(v, c, TaskWithId(x.id, name, x.body)), c, Called(x, LinksGiven(v)));
  }

  lemma RollbackCalm(u: State, q: nat, w: Connect, c: Connect)
    requires Wf(u) && q < |u.workers| && w in u.conns && c in u.conns
    ensures Calm(u.conns, Rollback(u, q, w, c).conns)
  {
    ConnIsLive(u, w);
    hide Calm, Wf, Grounded, ConnsLive, Send;
    var l := u.conns[w].nloop;
    var a := Link(u, w);
    assert Keeps(u.conns[w], a.conns[w]);
    UpdCalm(u, w, a.conns[w]);
    assert c in a.conns;
    var b := SetWorkers(a, q, l, InsertAt(u.workers[q][l], 0, w));
    SendCalm(b, c, CollisionId);
    CalmTrans(u.conns, b.conns, Send(b, c, CollisionId).conns);
  }

  /** However the worker is served once its entry is erased. */
  lemma DispatchedCalm(t: State, q: nat, w: Connect, c: Connect, name: string, rnd: Entropy)
    requires Wf(t) && q < |t.workers| && w in t.conns && c in t.conns
    ensures Calm(t.conns, DispatchAsync(t, w, c, name).conns) && Calm(t.conns, DispatchLinked(t, w, c, name).conns)
    ensures var u := ResolveId(t, c, rnd);
      && Wf(u) && q < |u.workers| && w in u.conns && c in u.conns
      && Calm(t.conns, Rollback(u, q, w, c).conns) && Calm(t.conns, DispatchWithId(u, w, c, name).conns)
  {
    hide Calm, Grounded, DispatchAsync, DispatchLinked, DispatchWithId, Rollback, ResolveId, Keeps;
    DispatchAsyncCalm(t, w, c, name);
    DispatchLinkedCalm(t, w, c, name);
    ResolveIdWf(t, c, rnd);
    ResolveIdCalm(t, c, rnd);
    var u := ResolveId(t, c, rnd);
    RollbackCalm(u, q, w, c);
    DispatchWithIdCalm(u, w, c, name);
    CalmTrans(t.conns, u.conns, Rollback(u, q, w, c).conns);
    CalmTrans(t.conns, u.conns, DispatchWithId(u, w, c, name).conns);
  }

  lemma DispatchCalm(s: State, q: nat, l: nat, i: nat, c: Connect, name: string, rnd: Entropy)
    requires Wf(s) && q < |s.workers| && l < s.threads && i < |s.workers[q][l]| && c in s.conns
    ensures Calm(s.conns, Dispatch(s, q, l, i, c, name, rnd).conns)
  {
    hide Calm, Wf, Grounded, EraseWorker, DispatchAsync, DispatchLinked, DispatchWithId, Rollback, ResolveId, Keeps;
    hide ConnsLive;
    ErasedFrame(s, q, l, i);
    EraseWorkerCalm(s, q, l, i);
    var w, t := s.workers[q][l][i], EraseWorker(s, q, l, i);
    DispatchedCalm(t, q, w, c, name, rnd);
    CalmTrans(s.conns, t.conns, Dispatch(s, q, l, i, c, name, rnd).conns);
  }

  lemma ErasedFrame(s: State, q: nat, l: nat, i: nat)
    requires Wf(s) && q < |s.workers| && l < s.threads && i < |s.workers[q][l]|
    ensures s.workers[q][l][i] in s.conns && l < |s.workers[q]|
    ensures var t := EraseWorker(s, q, l, i); Wf(t) && q < |t.workers| && t.conns.Keys == s.conns.Keys
  {
    hide Grounded, EraseWorker;
    RemoveWorkerWf(s, q, l, i);
    EraseWorkerWf(s, q, l, i);
    ErasedWorkers(s, q, l, i);
    SameLines(s, EraseWorker(s, q, l, i), q);
  }

  lemma SameLines(s: State, t: State, q: nat)
    requires Wf(s) && SameFrame(s, t) && q < |s.workers|
    ensures q < |t.workers|
  {
    Leads.FrameLines(s, t, q);
  }

  lemma EnqueueCalm(s: State, q: nat, c: Connect, name: string)
    requires Wf(s) && q < |s.clients| && c in s.conns
    ensures Calm(s.conns, Enqueue(s, q, c, name).conns)
  {
    ConnIsLive(s, c);
    hide Calm, Wf, Grounded, ConnsLive, Keeps, Send, SetAt, InsertAt, Slot;
    var v := s.conns[c];
    AskedKeeps(v, name);
    SendCalm(s, c, NoContent);
    UpdCalm(s, c, Told(v, AsyncAccepted).(requiredWorker := "", body := ""));
    UpdCalm(s, c, Called(v, 1).(requiredWorker := "", name := name));
  }

  lemma AskedKeeps(v: Conn, name: string)
    ensures Keeps(v, Told(v, AsyncAccepted).(requiredWorker := "", body := ""))
    ensures Keeps(v, Called(v, 1).(requiredWorker := "", name := name))
  {
  }

  lemma SeekCalm(s: State, q: nat, c: Connect, name: string, rnd: Entropy)
    requires Wf(s) && c in s.conns && q < |s.lists|
    ensures Calm(s.conns, Seek(s, q, c, name, rnd).conns)
  {
    ConnIsLive(s, c);
    hide Calm, Grounded, ConnsLive, FindWorker, Enqueue, Dispatch;
    FindWorkerCalm(s, q, s.conns[c].nloop, s.conns[c].requiredWorker, -1);
    var t := FindWorker(s, q, s.conns[c].nloop, s.conns[c].requiredWorker, -1).s;
    match FindWorker(s, q, s.conns[c].nloop, s.conns[c].requiredWorker, -1)
    case NoWorker(t) =>
      EnqueueCalm(t, q, c, name);
      CalmTrans(s.conns, t.conns, Enqueue(t, q, c, name).conns);
    case FoundWorker(t, l, i) =>
      DispatchCalm(t, q, l, i, c, name, rnd);
      CalmTrans(s.conns, t.conns, Dispatch(t, q, l, i, c, name, rnd).conns);
  }

  lemma ClientRequestCalm(s: State, c: Connect, name: string, rnd: Entropy)
    requires Wf(s) && c in s.conns
    ensures Calm(s.conns, ClientRequest(s, c, name, rnd).conns)
  {
    hide Calm, Wf, Grounded, ConnsLive, Seek, FoundQueue, Send;
    var a := CallMade(s, c);
    Leads.ShapeOf(a);
    UpdCalm(s, c, s.conns[c].(calls := s.conns[c].calls + 1));
    match FoundQueue(a, name)
    case None =>
      SendCalm(a, c, NotFound);
      CalmTrans(s.conns, a.conns, Send(a, c, NotFound).conns);
    case Some(q) =>
      SeekCalm(a, q, c, name, rnd);
      CalmTrans(s.conns, a.conns, Seek(a, q, c, name, rnd).conns);
  }

  // Registering

  lemma DropMessageCalm(s: State, q: nat, l: nat, i: nat, rnd: Entropy)
    requires Wf(s) && q < |s.clients| && l < s.threads && i < |s.clients[q][l]| && s.clients[q][l][i].conn.Some?
    ensures Calm(s.conns, DropMessage(s, q, l, i, rnd).conns)
  {
    RemoveMessageWf(s, q, l, i);
    hide Calm, Grounded, ResolveId, EraseMessage, SameFrame;
    var c := s.clients[q][l][i].conn.value;
    if s.conns[c].closed || s.conns[c].status != ClientWaitResult {
      EraseMessageCalm(s, q, l, i);
    } else {
      ResolveIdWf(s, c, rnd);
      ResolveIdCalm(s, c, rnd);
      var t := ResolveId(s, c, rnd);
      SameQueue(s, c, rnd);
      TurnedAwayCalm(t, q, l, i, c);
      CalmTrans(s.conns, t.conns, RejectQueued(t, q, l, i, c).conns);
    }
  }

  lemma SameQueue(s: State, c: Connect, rnd: Entropy)
    requires Wf(s) && c in s.conns
    ensures var t := ResolveId(s, c, rnd); Wf(t) && t.clients == s.clients && t.conns.Keys == s.conns.Keys
  {
    hide Grounded;
    ResolveIdWf(s, c, rnd);
  }

  lemma TurnedAwayCalm(t: State, q: nat, l: nat, i: nat, c: Connect)
    requires Wf(t) && q < |t.clients| && l < |t.clients[q]| && i < |t.clients[q][l]| && c in t.conns
    requires MsgLive(t.clients[q][l][i], t.conns.Keys)
    ensures Calm(t.conns, RejectQueued(t, q, l, i, c).conns)
  {
    hide Calm, Wf, Grounded, ConnsLive, EraseMessage;
    EraseMessageWf(t, q, l, i);
    EraseMessageCalm(t, q, l, i);
    var u := EraseMessage(t, q, l, i);
    UpdCalm(u, c, Served(u.conns[c], Net, CollisionId));
    CalmTrans(t.conns, u.conns, RejectQueued(t, q, l, i, c).conns);
  }

  lemma {:induction false} ScanMessagesCalm(s: State, q: nat, l: nat, w: Connect, i: nat, rnd: Entropy)
    requires Wf(s) && q < |s.clients| && l < s.threads && i <= |s.clients[q][l]| && w in s.conns
    ensures Calm(s.conns, ScanMessages(s, q, l, w, i, rnd).s.conns)
    decreases |s.clients[q][l]| - i
  {
    hide Grounded, Calm, DropMessage, ResolveId;
    CalmRefl(s.conns);
    var d := s.clients[q][l];
    if i < |d| {
      RemoveMessageWf(s, q, l, i);
      if !Suits(d[i].required, s.conns[w].connectionId) {
        ScanMessagesCalm(s, q, l, w, i + 1, rnd);
      } else if !Takeable(s, d[i], w, rnd) {
        DropMessageCalm(s, q, l, i, rnd);
        var t := DropMessage(s, q, l, i, rnd);
        ScanMessagesCalm(t, q, l, w, i, rnd);
        CalmTrans(s.conns, t.conns, ScanMessages(t, q, l, w, i, rnd).s.conns);
      } else if d[i].conn.Some? {
        ResolveIdCalm(s, d[i].conn.value, rnd);
      }
    }
  }

  lemma {:induction false} FindMessageCalm(s: State, q: nat, local: nat, w: Connect, index: int, rnd: Entropy)
    requires Wf(s) && q < |s.clients| && local < s.threads && -1 <= index && w in s.conns
    ensures Calm(s.conns, FindMessage(s, q, local, w, index, rnd).s.conns)
    decreases s.threads - index
  {
    hide Grounded, Calm, ScanMessages;
    CalmRefl(s.conns);
    if index < s.threads {
      if index == local {
        FindMessageCalm(s, q, local, w, index + 1, rnd);
      } else {
        ScanMessagesCalm(s, q, LoopAt(index, local), w, 0, rnd);
        match ScanMessages(s, q, LoopAt(index, local), w, 0, rnd)
        case FoundMessage(t, l, i) =>
        case NoMessage(t) =>
          FindMessageCalm(t, q, local, w, index + 1, rnd);
          CalmTrans(s.conns, t.conns, FindMessage(t, q, local, w, index + 1, rnd).s.conns);
      }
    }
  }

  lemma TakeCalm(s: State, q: nat, l: nat, i: nat, w: Connect)
    requires Wf(s) && q < |s.clients| && l < |s.clients[q]| && i < |s.clients[q][l]| && w in s.conns
    ensures Calm(s.conns, Take(s, q, l, i, w).conns)
  {
    EraseMessageWf(s, q, l, i);
    RemoveMessageWf(s, q, l, i);
    EraseMessageCalm(s, q, l, i);
    hide Calm, Wf, Grounded, ConnsLive, EraseMessage, Served, ServedNoid, ServedWithId, Picked;
    var m, t := s.clients[q][l][i], EraseMessage(s, q, l, i);
    if m.conn.None? {
      TookCalm(t.conns[w], t.conns[w], w, StatusAfterAsync(t.conns[w]), AsyncTask(JobOf(m)), 0);
      UpdCalm(t, w, Served(t.conns[w], StatusAfterAsync(t.conns[w]), AsyncTask(JobOf(m))));
    } else {
      TakeSyncCalm(t, w, m.conn.value);
    }
    hide TakeAsync, TakeSync;
    CalmTrans(s.conns, t.conns, Take(s, q, l, i, w).conns);
  }

  lemma TookCalm(v: Conn, u: Conn, c: Connect, status: Status, r: Reply, links: nat)
    requires !IsResult(r)
    ensures Keeps(v, Served(v, status, r)) && Keeps(v, ServedNoid(v, c, r)) && Keeps(v, ServedWithId(v, c, r))
    ensures Keeps(u, Picked(u, links))
  {
  }

  lemma TakeSyncCalm(t: State, w: Connect, c: Connect)
    requires w in t.conns && c in t.conns
    ensures Calm(t.conns, TakeSync(t, w, c).conns)
  {
    hide Calm, Keeps, ServedNoid, ServedWithId, Picked;
    var v, u := t.conns[w], t.conns[c];
    if v.noid {
      var links := if v.failOnDisconnect then 1 else 0;
      TookCalm(v, u, c, Net, Task(u.name, u.body), links);
      TwoCalm(t, w, ServedNoid(v, c, Task(u.name, u.body)), c, Picked(u, links));
    } else {
      var task := TaskWithId(u.id, u.name, u.body);
      TookCalm(v, u, c, Net, task, LinksGiven(v));
      TwoCalm(t, w, ServedWithId(v, c, task), c, Picked(u, LinksGiven(v)));
    }
  }

  lemma {:induction false} SweepCalm(s: State, q: nat, l: nat, w: Connect, i: nat)
    requires Wf(s) && q < |s.workers| && l < s.threads && i <= |s.workers[q][l]|
    ensures Calm(s.conns, Sweep(s, q, l, w, i).conns)
    decreases |s.workers[q][l]| - i
  {
    hide Grounded, Calm, EraseWorker;
    CalmRefl(s.conns);
    var d := s.workers[q][l];
    if i < |d| {
      RemoveWorkerWf(s, q, l, i);
      if s.conns[d[i]].closed || d[i] == w {
        EraseWorkerWf(s, q, l, i);
        ErasedWorkers(s, q, l, i);
        EraseWorkerCalm(s, q, l, i);
        var t := EraseWorker(s, q, l, i);
        SweepCalm(t, q, l, w, i);
        CalmTrans(s.conns, t.conns, Sweep(t, q, l, w, i).conns);
      } else {
        SweepCalm(s, q, l, w, i + 1);
      }
    }
  }

  lemma ParkCalm(s: State, q: nat, w: Connect)
    requires Wf(s) && q < |s.workers| && w in s.conns
    ensures Calm(s.conns, Park(s, q, w).conns)
  {
    ConnIsLive(s, w);
    hide Calm, Grounded, ConnsLive, Sweep, SetAt, InsertAt, Keeps, SameFrame;
    var l := s.conns[w].nloop;
    SweepCalm(s, q, l, w, 0);
    var t := Sweep(s, q, l, w, 0);
    SweptLines(s, q, l, w);
    var d := t.workers[q][l];
    PlacedCalm(SetWorkers(t, q, l, InsertAt(d, |d|, w)), w);
    CalmTrans(s.conns, t.conns, Park(s, q, w).conns);
  }

  lemma SweptLines(s: State, q: nat, l: nat, w: Connect)
    requires Wf(s) && q < |s.workers| && l < s.threads && w in s.conns
    ensures var t := Sweep(s, q, l, w, 0); q < |t.workers| && l < |t.workers[q]| && w in t.conns
  {
    hide Grounded, Sweep;
  }

  lemma PlacedCalm(a: State, w: Connect)
    requires w in a.conns
    ensures Calm(a.conns, SetStatus(Link(a, w), w, WorkerWaitJob).conns)
  {
    hide Calm;
    var v := a.conns[w];
    var u := v.(link := v.link + 1);
    UpdTwice(a, w, u, u.(status := WorkerWaitJob));
    UpdCalm(a, w, u.(status := WorkerWaitJob));
  }

  lemma EnlistCalm(s: State, q: nat, w: Connect, name: string)
    requires w in s.conns && q < |s.lists|
    ensures Calm(s.conns, Enlist(s, q, w, name).conns)
  {
    hide Calm, PushItem;
    CalmRefl(s.conns);
    var v := s.conns[w];
    if v.item.None? {
      PushItemCalm(s, q, w);
      var t := if v.workerMode || v.noid || v.status == WorkerWaitJob then PushItem(s, w, q) else s;
      UpdCalm(t, w, t.conns[w].(subName := name));
      CalmTrans(s.conns, t.conns, Upd(t, w, t.conns[w].(subName := name)).conns);
    }
  }

  lemma PushItemCalm(s: State, q: nat, w: Connect)
    requires w in s.conns && q < |s.lists|
    ensures Calm(s.conns, PushItem(s, w, q).conns) && w in PushItem(s, w, q).conns
  {
  }

  lemma PrepareCalm(s: State, w: Connect, name: string, rnd: Entropy)
    requires Wf(s) && w in s.conns
    ensures Calm(s.conns, Prepare(s, w, name, rnd).conns)
  {
    hide Calm, Wf, Grounded, ConnsLive, CreateQueue, PopItem, ResolveConnectionId, FoundQueue;
    OpenedConns(s, name);
    OpenQueueWf(s, name);
    var a := OpenQueue(s, name);
    hide OpenQueue;
    ResolveConnectionIdWf(a, w, rnd);
    ConnectionIdCalm(a, w, rnd);
    var b := ResolveConnectionId(a, w, rnd);
    PopItemCalm(b, w);
    CalmTrans(s.conns, b.conns, PopItem(b, w).conns);
  }

  lemma OpenedConns(s: State, name: string)
    requires Wf(s)
    ensures Shape(s) && OpenQueue(s, name).conns == s.conns
  {
    hide Grounded;
  }

  lemma ConnectionIdCalm(s: State, w: Connect, rnd: Entropy)
    requires w in s.conns
    ensures Calm(s.conns, ResolveConnectionId(s, w, rnd).conns)
  {
    hide GeneratedId;
  }

  lemma ServeCalm(d: State, q: nat, w: Connect, name: string, rnd: Entropy)
    requires Wf(d) && w in d.conns && q < |d.lists|
    ensures Calm(d.conns, Serve(d, q, w, name, rnd).s.conns)
  {
    ConnIsLive(d, w);
    hide Calm, Grounded, ConnsLive, FindMessage, Take, Park, Enlist;
    FindMessageCalm(d, q, d.conns[w].nloop, w, -1, rnd);
    match FindMessage(d, q, d.conns[w].nloop, w, -1, rnd)
    case FoundMessage(t, l, i) =>
      TakeWf(t, q, l, i, w);
      TakeCalm(t, q, l, i, w);
      EnlistCalm(Take(t, q, l, i, w), q, w, name);
      CalmTrans(d.conns, t.conns, Take(t, q, l, i, w).conns);
      CalmTrans(d.conns, Take(t, q, l, i, w).conns, Enlist(Take(t, q, l, i, w), q, w, name).conns);
    case NoMessage(t) =>
      ParkWf(t, q, w);
      ParkCalm(t, q, w);
      EnlistCalm(Park(t, q, w), q, w, name);
      CalmTrans(d.conns, t.conns, Park(t, q, w).conns);
      CalmTrans(d.conns, Park(t, q, w).conns, Enlist(Park(t, q, w), q, w, name).conns);
  }

  lemma {:induction false} AddWorkersCalm(s: State, w: Connect, names: seq<string>, rnd: Entropy)
    requires Wf(s) && w in s.conns
    ensures Calm(s.conns, AddWorkers(s, w, names, rnd).conns)
    decreases |names|
  {
    hide Calm, Wf, Grounded, ConnsLive, Serve, Prepare, OpenedQueue, StripSlash;
    CalmRefl(s.conns);
    if names != [] {
      var name := StripSlash(names[0]);
      PrepareCalm(s, w, name, rnd);
      OpenedConns(s, name);
      var d := Prepare(s, w, name, rnd);
      ServeCalm(d, OpenedQueue(s, name), w, name, rnd);
      var r := AddWorker(s, w, names[0], rnd);
      CalmTrans(s.conns, d.conns, r.s.conns);
      hide AddWorker;
      AddWorkersCalm(r.s, w, names[1..], rnd);
      CalmTrans(s.conns, r.s.conns, AddWorkers(r.s, w, names[1..], rnd).conns);
    }
  }

  lemma RpcAddCalm(s: State, c: Connect, rnd: Entropy)
    requires Wf(s) && c in s.conns
    ensures Calm(s.conns, RpcAdd(s, c, rnd).conns)
  {
    hide Calm, Wf, Grounded, ConnsLive, AddWorkers, Send, SplitNames, Keeps;
    var v := s.conns[c];
    ConnIsLive(s, c);
    RegisteringKeeps(v);
    if v.name == "" {
      var u := v.(workerMode := false);
      UpdCalm(s, c, u);
      SendCalm(Upd(s, c, u), c, NoName);
      CalmTrans(s.conns, Upd(s, c, u).conns, RpcAdd(s, c, rnd).conns);
    } else {
      var u := Engaged(v);
      UpdCalm(s, c, u);
      UpdWf(s, c, u);
      AddWorkersCalm(Upd(s, c, u), c, SplitNames(v.name, 0, 0), rnd);
      CalmTrans(s.conns, Upd(s, c, u).conns, RpcAdd(s, c, rnd).conns);
    }
  }

  lemma RegisteringKeeps(v: Conn)
    ensures Keeps(v, v.(workerMode := false)) && Keeps(v, Engaged(v))
  {
  }

  lemma StopCalm(a: State, c: Connect)
    requires Wf(a) && c in a.conns
    ensures Calm(a.conns, Stop(a, c).conns)
  {
    hide Calm, Wf, Grounded, ConnsLive, PopItem, Send, SetStatus;
    PopItemCalm(a, c);
    PopItemWf(a, c);
    var b := PopItem(a, c);
    var d := Upd(b, c, b.conns[c].(workerMode := false));
    UpdCalm(b, c, b.conns[c].(workerMode := false));
    SendCalm(d, c, Ok);
    CalmKeys(d.conns, Send(d, c, Ok).conns);
    StatusCalm(Send(d, c, Ok), c, Net);
    CalmTrans(a.conns, b.conns, d.conns);
    CalmTrans(a.conns, d.conns, Send(d, c, Ok).conns);
    CalmTrans(a.conns, Send(d, c, Ok).conns, Stop(a, c).conns);
  }

  lemma CalmKeys(a: map<Connect, Conn>, b: map<Connect, Conn>)
    requires Calm(a, b)
    ensures a.Keys == b.Keys
  {
  }

  // Disconnecting

  lemma ForgetCalm(s: State, c: Connect)
    requires Wf(s) && c in s.conns
    ensures Calm(s.conns, Forget(s, c).conns)
  {
    hide Calm, Wf, Grounded, ConnsLive, PopItem, Unlink;
    PopItemCalm(s, c);
    PopItemWf(s, c);
    var p := PopItem(s, c);
    CalmRefl(p.conns);
    var v := p.conns[c];
    if v.status == ClientWaitResult && v.id != "" && v.id in p.wait {
      UnlinkCalm(p.(wait := p.wait - {v.id}), c);
    }
    CalmTrans(s.conns, p.conns, Forget(s, c).conns);
  }

  lemma UnansweredCalm(s: State, id: string)
    requires Wf(s)
    ensures Calm(s.conns, WorkerResult(s, id, None).s.conns)
  {
    hide Calm, Wf, Grounded, ConnsLive, Unlink, Send, SetStatus;
    CalmRefl(s.conns);
    if id in s.wait {
      RemoveWaitWf(s, id);
      Departures.EntryLive(s, id);
      var c, t := s.wait[id], s.(wait := s.wait - {id});
      UnlinkCalm(t, c);
      var u := Unlink(t, c);
      CalmKeys(t.conns, u.conns);
      if !u.conns[c].closed {
        TurnedOffCalm(u, c, Unavailable, Net);
        CalmTrans(s.conns, u.conns, SetStatus(Send(u, c, Unavailable), c, Net).conns);
      }
    }
  }

  lemma TurnedOffCalm(u: State, c: Connect, r: Reply, status: Status)
    requires c in u.conns && !IsResult(r)
    ensures c in Send(u, c, r).conns && Calm(u.conns, SetStatus(Send(u, c, r), c, status).conns)
  {
    hide Calm, Send, SetStatus;
    SendCalm(u, c, r);
    CalmKeys(u.conns, Send(u, c, r).conns);
    StatusCalm(Send(u, c, r), c, status);
    CalmTrans(u.conns, Send(u, c, r).conns, SetStatus(Send(u, c, r), c, status).conns);
  }

  lemma FailServedCalm(s: State, c: Connect)
    requires Wf(s) && c in s.conns
    ensures Calm(s.conns, FailServed(s, c).conns)
  {
    hide Calm, Wf, Grounded, ConnsLive, Send, SetStatus, WorkerResult;
    CalmRefl(s.conns);
    ConnIsLive(s, c);
    var v := s.conns[c];
    if v.client.Some? {
      var d := v.client.value;
      if v.noid {
        TurnedOffCalm(s, d, Unavailable, Net);
        StatusCalm(s, d, Net);
      } else {
        UnansweredCalm(s, s.conns[d].id);
      }
    }
  }

  lemma DropClientCalm(s: State, c: Connect)
    requires Wf(s) && c in s.conns
    ensures Calm(s.conns, DropClient(s, c).conns)
  {
    hide Calm, Wf, Grounded, ConnsLive, Unlink;
    CalmRefl(s.conns);
    ConnIsLive(s, c);
    if s.conns[c].client.Some? {
      var t, d := SetClient(s, c, None), s.conns[c].client.value;
      UpdCalm(s, c, s.conns[c].(client := None));
      CalmKeys(s.conns, t.conns);
      UnlinkCalm(t, d);
      CalmTrans(s.conns, t.conns, Unlink(t, d).conns);
    }
  }

  lemma DisconnectCalm(s: State, c: Connect)
    requires Wf(s) && c in s.conns
    ensures Calm(s.conns, Disconnect(s, c).conns)
  {
    hide Calm, Wf, Grounded, ConnsLive, Forget, FailServed, DropClient, Unlink;
    SetClosedWf(s, c);
    var a := SetClosed(s, c);
    UpdCalm(s, c, s.conns[c].(closed := true));
    ForgetCalm(a, c);
    var b := Forget(a, c);
    FailServedCalm(b, c);
    DropClientCalm(FailServed(b, c), c);
    CalmTrans(b.conns, FailServed(b, c).conns, DropClient(FailServed(b, c), c).conns);
    var d := OnDisconnect(a, c);
    if b.conns[c].failOnDisconnect {
      CalmTrans(a.conns, b.conns, d.conns);
    }
    UnlinkCalm(d, c);
    CalmTrans(a.conns, d.conns, Unlink(d, c).conns);
    CalmTrans(s.conns, a.conns, Unlink(d, c).conns);
  }

  lemma BeginCalm(s: State, c: Connect)
    requires Wf(s) && c in s.conns
    ensures Calm(s.conns, Begin(s, c).conns)
  {
    hide Calm, Wf, Grounded, ConnsLive, Disconnect, DropClient, Fresh, Keeps;
    FreshKeeps(s.conns[c]);
    ConnIsLive(s, c);
    var f := Fresh(s.conns[c]).(failOnDisconnect := false, noid := false);
    DisconnectCalm(s, c);
    UpdCalm(s, c, Fresh(s.conns[c]));
    UpdCalm(s, c, f);
    FreshLives(s, c);
    UpdWf(s, c, f);
    DropClientCalm(Upd(s, c, f), c);
    CalmTrans(s.conns, Upd(s, c, f).conns, DropClient(Upd(s, c, f), c).conns);
  }

  lemma FreshKeeps(v: Conn)
    ensures Keeps(v, Fresh(v)) && Keeps(v, Fresh(v).(failOnDisconnect := false, noid := false))
  {
  }

  lemma FreshLives(s: State, c: Connect)
    requires Wf(s) && c in s.conns
    ensures var f := Fresh(s.conns[c]).(failOnDisconnect := false, noid := false);
      ConnLive(f, s.conns.Keys, |s.lists|, s.threads)
  {
    ConnIsLive(s, c);
    hide Wf, Grounded, ConnsLive;
  }

  // Periodic work

  lemma {:induction false} TimeoutAllCalm(s: State, ws: seq<Connect>, now: nat)
    requires Wf(s) && forall i :: 0 <= i < |ws| ==> ws[i] in s.conns
    ensures Calm(s.conns, TimeoutAll(s, ws, now).conns)
    decreases |ws|
  {
    hide Calm, Wf, Grounded, ConnsLive, TimeoutOne;
    CalmRefl(s.conns);
    if ws != [] {
      TimeoutOneCalm(s, ws[0], now);
      var t := TimeoutOne(s, ws[0], now);
      TimeoutAllCalm(t, ws[1..], now);
      CalmTrans(s.conns, t.conns, TimeoutAll(t, ws[1..], now).conns);
    }
  }

  lemma TimeoutOneCalm(s: State, w: Connect, now: nat)
    requires Wf(s) && w in s.conns
    ensures Calm(s.conns, TimeoutOne(s, w, now).conns)
  {
    hide Calm, Wf, Grounded, ConnsLive, Send;
    CalmRefl(s.conns);
    var v := s.conns[w];
    var u := v.(status := StatusAfterAsync(v), pingTimeout := now + v.ping);
    UpdCalm(s, w, u);
    CalmKeys(s.conns, Upd(s, w, u).conns);
    SendCalm(Upd(s, w, u), w, Timeout);
    CalmTrans(s.conns, Upd(s, w, u).conns, Send(Upd(s, w, u), w, Timeout).conns);
  }

  lemma {:induction false} CleanWorkersCalm(s: State, q: nat, l: nat, i: nat)
    requires Wf(s) && q < |s.workers| && l < s.threads && i <= |s.workers[q][l]|
    ensures Calm(s.conns, CleanWorkers(s, q, l, i).conns)
    decreases |s.workers[q][l]| - i
  {
    hide Grounded, EraseWorker, Calm;
    CalmRefl(s.conns);
    if i < |s.workers[q][l]| {
      RemoveWorkerWf(s, q, l, i);
      if !Ready(s.conns[s.workers[q][l][i]]) {
        EraseWorkerWf(s, q, l, i);
        ErasedWorkers(s, q, l, i);
        EraseWorkerCalm(s, q, l, i);
        var t := EraseWorker(s, q, l, i);
        CleanWorkersCalm(t, q, l, i);
        CalmTrans(s.conns, t.conns, CleanWorkers(t, q, l, i).conns);
      } else {
        CleanWorkersCalm(s, q, l, i + 1);
      }
    }
  }

  lemma {:induction false} CleanClientsCalm(s: State, q: nat, l: nat, i: nat)
    requires Wf(s) && q < |s.clients| && l < s.threads && i <= |s.clients[q][l]|
    ensures Calm(s.conns, CleanClients(s, q, l, i).conns)
    decreases |s.clients[q][l]| - i
  {
    hide Grounded, EraseMessage, Calm;
    CalmRefl(s.conns);
    if i < |s.clients[q][l]| {
      RemoveMessageWf(s, q, l, i);
      if Stale(s, s.clients[q][l][i]) {
        EraseMessageWf(s, q, l, i);
        ErasedClients(s, q, l, i);
        EraseMessageCalm(s, q, l, i);
        var t := EraseMessage(s, q, l, i);
        CleanClientsCalm(t, q, l, i);
        CalmTrans(s.conns, t.conns, CleanClients(t, q, l, i).conns);
      } else {
        CleanClientsCalm(s, q, l, i + 1);
      }
    }
  }

  lemma {:induction false} CleanLineCalm(s: State, q: nat, l: nat)
    requires Wf(s) && q < |s.lists|
    ensures Calm(s.conns, CleanLine(s, q, l).conns)
    decreases s.threads - l
  {
    hide Grounded, CleanWorkers, CleanClients, Calm;
    CalmRefl(s.conns);
    if l < s.threads {
      CleanWorkersCalm(s, q, l, 0);
      var t := CleanWorkers(s, q, l, 0);
      CleanClientsCalm(t, q, l, 0);
      var u := CleanClients(t, q, l, 0);
      CleanLineCalm(u, q, l + 1);
      CalmTrans(s.conns, t.conns, u.conns);
      CalmTrans(s.conns, u.conns, CleanLine(u, q, l + 1).conns);
    }
  }

  lemma {:induction false} CleanCalm(s: State, q: nat, locked: set<nat>)
    requires Wf(s)
    ensures Calm(s.conns, Clean(s, q, locked).conns)
    decreases |s.lists| - q
  {
    hide Wf, CleanLine, Calm, Grounded, ConnsLive;
    CalmRefl(s.conns);
    if q < |s.lists| {
      if q in locked {
        CleanCalm(s, q + 1, locked);
      } else {
        CleanLineCalm(s, q, 0);
        var t := CleanLine(s, q, 0);
        CleanCalm(t, q + 1, locked);
        CalmTrans(s.conns, t.conns, Clean(t, q + 1, locked).conns);
      }
    }
  }

  // Results

  /** x hears this result first, and then no other; everybody else hears none. */
  predicate Hears(u: Conn, v: Conn, reply: Reply) {
    && u.out + [reply] <= v.out && v.spoilt == u.spoilt
    && (forall k :: |u.out| < k < |v.out| ==> !IsResult(v.out[k]))
  }

  predicate OneHears(a: map<Connect, Conn>, b: map<Connect, Conn>, c: Connect, reply: Reply) {
    a.Keys == b.Keys && forall x :: x in a ==> if x == c then Hears(a[x], b[x], reply) else Keeps(a[x], b[x])
  }

  lemma HearsOn(a: map<Connect, Conn>, b: map<Connect, Conn>, d: map<Connect, Conn>, c: Connect, reply: Reply)
    requires OneHears(a, b, c, reply) && Calm(b, d)
    ensures OneHears(a, d, c, reply)
  {
    forall x | x in a ensures if x == c then Hears(a[x], d[x], reply) else Keeps(a[x], d[x]) {
      if x == c {
        StillHears(a[x], b[x], d[x], reply);
      } else {
        KeepsTrans(a[x], b[x], d[x]);
      }
    }
  }

  lemma StillHears(u: Conn, v: Conn, w: Conn, reply: Reply)
    requires Hears(u, v, reply) && Keeps(v, w)
    ensures Hears(u, w, reply)
  {
  }

  lemma AnswerHeard(s: State, c: Connect, reply: Reply)
    requires c in s.conns && !s.conns[c].closed
    ensures var t := SetStatus(Send(s, c, reply), c, Net); OneHears(s.conns, t.conns, c, reply)
    ensures var t := Send(SetStatus(s, c, Net), c, reply); OneHears(s.conns, t.conns, c, reply)
  {
    var v := s.conns[c];
    SendThenStatus(s, c, reply, Net);
    ServedHears(v, reply);
    hide Hears, Keeps, Send, SetStatus;
    UpdHears(s, c, Served(v, Net, reply), reply);
  }

  lemma ServedHears(v: Conn, reply: Reply)
    ensures Hears(v, Served(v, Net, reply), reply)
  {
  }

  lemma UpdHears(s: State, c: Connect, v: Conn, reply: Reply)
    requires c in s.conns && Hears(s.conns[c], v, reply)
    ensures OneHears(s.conns, Upd(s, c, v).conns, c, reply)
  {
    hide Hears;
  }

  /** Nobody has heard anything. */
  predicate Silent(a: map<Connect, Conn>, b: map<Connect, Conn>) {
    a.Keys == b.Keys && forall x :: x in a ==> Mute(a[x], b[x])
  }

  predicate Mute(u: Conn, v: Conn) {
    v.out == u.out && v.spoilt == u.spoilt
  }

  lemma UnlinkSilent(s: State, c: Connect)
    requires c in s.conns
    ensures Silent(s.conns, Unlink(s, c).conns)
    ensures c in Unlink(s, c).conns && Unlink(s, c).conns[c].closed == s.conns[c].closed
  {
    UnlinkChanges(s, c);
    hide Unlink;
    var v := s.conns[c].(link := s.conns[c].link - 1);
    UpdSilent(s, c, v);
  }

  lemma UpdSilent(s: State, c: Connect, v: Conn)
    requires c in s.conns && Mute(s.conns[c], v)
    ensures Silent(s.conns, s.conns[c := v])
  {
    hide Mute;
    assert Mute(s.conns[c], v);
    forall x | x in s.conns && x != c ensures Mute(s.conns[x], s.conns[x]) {
      MuteRefl(s.conns[x]);
    }
  }

  lemma MuteRefl(v: Conn)
    ensures Mute(v, v)
  {
  }

  lemma SilentHears(a: map<Connect, Conn>, b: map<Connect, Conn>, d: map<Connect, Conn>, c: Connect, reply: Reply)
    requires Silent(a, b) && OneHears(b, d, c, reply)
    ensures OneHears(a, d, c, reply)
  {
  }

  lemma SilentCalm(a: map<Connect, Conn>, b: map<Connect, Conn>, d: map<Connect, Conn>)
    requires Silent(a, b) && Calm(b, d)
    ensures Calm(a, d)
  {
  }

  /** The result of a worker without ids goes to the client it points at. */
  lemma NoidHeard(a: State, w: Connect)
    requires Wf(a) && w in a.conns && a.conns[w].client.Some? && a.conns[w].client.value in a.conns
    requires a.conns[w].client.value != w
    ensures var t := WorkerResultNoid(a, w).s; var c := a.conns[w].client.value;
      if a.conns[c].closed then Calm(a.conns, t.conns) else OneHears(a.conns, t.conns, c, Answer(a.conns[w].body))
  {
    hide Wf, Grounded, ConnsLive, Unlink, Send, SetStatus, Silent, Calm, OneHears;
    var v := a.conns[w];
    var c := v.client.value;
    var t := Upd(a, w, Released(v));
    ReleasedSilent(a, w);
    UnlinkSilent(t, c);
    var u := Unlink(t, c);
    CalmRefl(u.conns);
    SilentCalm(t.conns, u.conns, u.conns);
    SilentCalm(a.conns, t.conns, u.conns);
    SilentKeys(t.conns, u.conns);
    if !u.conns[c].closed {
      AnswerHeard(u, c, Answer(v.body));
      var d := WorkerResultNoid(a, w).s.conns;
      SilentHears(t.conns, u.conns, d, c, Answer(v.body));
      SilentHears(a.conns, t.conns, d, c, Answer(v.body));
    }
  }

  lemma SilentKeys(a: map<Connect, Conn>, b: map<Connect, Conn>)
    requires Silent(a, b)
    ensures a.Keys == b.Keys
  {
  }

  lemma ReleasedSilent(a: State, w: Connect)
    requires w in a.conns
    ensures Silent(a.conns, Upd(a, w, Released(a.conns[w])).conns)
    ensures var t := Upd(a, w, Released(a.conns[w]));
      forall x :: x in a.conns && x != w ==> x in t.conns && t.conns[x] == a.conns[x]
  {
    assert Mute(a.conns[w], Released(a.conns[w]));
    hide Released, Mute;
    UpdSilent(a, w, Released(a.conns[w]));
  }

  /** A result with an id goes to the client that is awaited under it. */
  lemma IdHeard(a: State, id: string, body: string)
    requires Wf(a)
    ensures var t := WorkerResult(a, id, Some(body)).s;
      if id in a.wait && a.wait[id] in a.conns && !a.conns[a.wait[id]].closed
      then OneHears(a.conns, t.conns, a.wait[id], AnswerWithId(id, body))
      else Calm(a.conns, t.conns)
  {
    hide Wf, Grounded, ConnsLive, Unlink, Send, SetStatus, Silent, Calm, OneHears;
    CalmRefl(a.conns);
    if id in a.wait {
      RemoveWaitWf(a, id);
      Departures.EntryLive(a, id);
      var c, t := a.wait[id], a.(wait := a.wait - {id});
      UnlinkSilent(t, c);
      var u := Unlink(t, c);
      CalmRefl(u.conns);
      SilentCalm(t.conns, u.conns, u.conns);
      SilentKeys(t.conns, u.conns);
      if !u.conns[c].closed {
        AnswerHeard(u, c, AnswerWithId(id, body));
        SilentHears(t.conns, u.conns, WorkerResult(a, id, Some(body)).s.conns, c, AnswerWithId(id, body));
      }
    }
  }

  // A complete request

  /** The request r of w delivers this result to x. */
  predicate Owed(s: State, w: Connect, r: Request, x: Connect, reply: Reply)
    requires w in s.conns && x in s.conns
  {
    var v := s.conns[w];
    && x != w && !s.conns[x].closed && r.kind != Echo
    && if v.noid
       then v.status == WorkerWaitResult && v.client == Some(x) && (v.workerMode || r.kind == Result)
         && reply == Answer(r.body)
       else
         var id := if r.id != "" then r.id else r.jsonId;
         r.kind == Result && id != "" && id in s.wait && s.wait[id] == x && reply == AnswerWithId(id, r.body)
  }

  /** A registration in worker mode whose body cannot be scanned. */
  predicate BrokenMode(v: Conn, r: Request) {
    !v.workerMode && !v.noid && r.kind == AddWorkerMode && r.broken
  }

  /** x hears the results that r delivers to it, one at most, and no others. */
  ghost predicate RoutedTo(s: State, w: Connect, r: Request, x: Connect, out: seq<Reply>, longer: seq<Reply>)
    requires w in s.conns && x in s.conns
  {
    && out <= longer
    && (forall k :: |out| <= k < |longer| && IsResult(longer[k]) ==> k == |out| && Owed(s, w, r, x, longer[k]))
    && (forall reply :: Owed(s, w, r, x, reply) ==> |out| < |longer| && longer[|out|] == reply)
  }

  ghost predicate Routed(s: State, t: State, w: Connect, r: Request) {
    && s.conns.Keys == t.conns.Keys && w in s.conns
    && (forall x :: x in s.conns ==> RoutedTo(s, w, r, x, s.conns[x].out, t.conns[x].out))
    && (forall x :: x in s.conns ==> Breaks(s.conns[x], t.conns[x], x == w && BrokenMode(s.conns[w], r)))
  }

  predicate Breaks(u: Conn, v: Conn, now: bool) {
    v.spoilt == (u.spoilt || now)
  }

  ghost predicate NoneOwed(s: State, w: Connect, r: Request)
    requires w in s.conns
  {
    forall x, reply :: x in s.conns ==> !Owed(s, w, r, x, reply)
  }

  /** b is s but for what the request says of w. */
  ghost predicate Prepared(s: State, b: State, w: Connect, r: Request) {
    && s.conns.Keys == b.conns.Keys && w in s.conns
    && (forall x :: x in s.conns ==> Primed(s.conns[x], b.conns[x], x == w && BrokenMode(s.conns[w], r)))
  }

  predicate Primed(u: Conn, v: Conn, now: bool) {
    v.out == u.out && Breaks(u, v, now)
  }

  lemma CalmRoutes(s: State, b: State, t: State, w: Connect, r: Request)
    requires Prepared(s, b, w, r) && Calm(b.conns, t.conns) && NoneOwed(s, w, r)
    ensures Routed(s, t, w, r)
  {
    hide Owed, Primed, Keeps, RoutedTo, Breaks, BrokenMode;
    forall x | x in s.conns
      ensures RoutedTo(s, w, r, x, s.conns[x].out, t.conns[x].out)
      ensures Breaks(s.conns[x], t.conns[x], x == w && BrokenMode(s.conns[w], r))
    {
      CalmRoutesTo(s, w, r, x, b.conns[x], t.conns[x], x == w && BrokenMode(s.conns[w], r));
    }
  }

  lemma CalmRoutesTo(s: State, w: Connect, r: Request, x: Connect, u: Conn, v: Conn, now: bool)
    requires w in s.conns && x in s.conns && Primed(s.conns[x], u, now) && Keeps(u, v)
    requires forall reply :: !Owed(s, w, r, x, reply)
    ensures RoutedTo(s, w, r, x, s.conns[x].out, v.out) && Breaks(s.conns[x], v, now)
  {
    hide Owed;
  }

  lemma OneRoutes(s: State, b: State, t: State, w: Connect, r: Request, c: Connect, reply: Reply)
    requires Prepared(s, b, w, r) && OneHears(b.conns, t.conns, c, reply) && c in s.conns
    requires forall x, other :: x in s.conns ==> (Owed(s, w, r, x, other) <==> x == c && other == reply)
    ensures Routed(s, t, w, r)
  {
    hide Owed, Primed, Keeps, Hears, RoutedTo, Breaks, BrokenMode;
    forall x | x in s.conns
      ensures RoutedTo(s, w, r, x, s.conns[x].out, t.conns[x].out)
      ensures Breaks(s.conns[x], t.conns[x], x == w && BrokenMode(s.conns[w], r))
    {
      if x == c {
        OneRoutesTo(s, w, r, x, b.conns[x], t.conns[x], x == w && BrokenMode(s.conns[w], r), reply);
      } else {
        CalmRoutesTo(s, w, r, x, b.conns[x], t.conns[x], x == w && BrokenMode(s.conns[w], r));
      }
    }
  }

  lemma OneRoutesTo(s: State, w: Connect, r: Request, x: Connect, u: Conn, v: Conn, now: bool, reply: Reply)
    requires w in s.conns && x in s.conns && Primed(s.conns[x], u, now) && Hears(u, v, reply)
    requires forall other :: Owed(s, w, r, x, other) <==> other == reply
    ensures RoutedTo(s, w, r, x, s.conns[x].out, v.out) && Breaks(s.conns[x], v, now)
  {
    hide Owed;
  }

  lemma FilledPrepared(s: State, c: Connect, r: Request, now: nat)
    requires c in s.conns
    ensures var f := Filled(s.conns[c], r, now);
      && (!BrokenMode(s.conns[c], r) ==> Prepared(s, Upd(s, c, f), c, r))
      && (!f.workerMode && !f.noid ==> Prepared(s, Upd(s, c, Marked(f, r)), c, r))
  {
    var v := s.conns[c];
    var f := Filled(v, r, now);
    FilledPrimed(v, r, now);
    hide Filled, Marked, Primed, BrokenMode;
    forall x | x in s.conns ensures Primed(s.conns[x], s.conns[x], false) {
      PrimedRefl(s.conns[x]);
    }
  }

  lemma PrimedRefl(v: Conn)
    ensures Primed(v, v, false)
  {
  }

  lemma FilledPrimed(v: Conn, r: Request, now: nat)
    ensures var f := Filled(v, r, now);
      && (!BrokenMode(v, r) ==> Primed(v, f, BrokenMode(v, r)))
      && (!f.workerMode && !f.noid ==> Primed(v, Marked(f, r), BrokenMode(v, r)))
  {
  }

  lemma FilledSays(v: Conn, r: Request, now: nat)
    ensures var f := Filled(v, r, now); var m := Marked(f, r);
      && f.body == r.body && f.client == v.client && f.id == r.id && f.jsonId == r.jsonId
      && m.body == r.body && m.id == r.id && m.jsonId == r.jsonId
  {
  }

  /** The request of a worker without ids delivers to its client, if that is still there. */
  lemma OwedByNoid(s: State, c: Connect, r: Request)
    requires c in s.conns && s.conns[c].noid && s.conns[c].status == WorkerWaitResult && r.kind != Echo
    requires s.conns[c].client.Some? && s.conns[c].client.value in s.conns && s.conns[c].client.value != c
    requires s.conns[c].workerMode || r.kind == Result
    ensures var x := s.conns[c].client.value;
      if s.conns[x].closed then NoneOwed(s, c, r)
      else forall y, other :: y in s.conns ==> (Owed(s, c, r, y, other) <==> y == x && other == Answer(r.body))
  {
  }

  /** A result with an id delivers to whoever is awaited under it, if that one is still there. */
  lemma OwedById(s: State, c: Connect, r: Request)
    requires c in s.conns && !s.conns[c].noid && r.kind == Result
    ensures var id := if r.id != "" then r.id else r.jsonId;
      if id != "" && id in s.wait && s.wait[id] in s.conns && s.wait[id] != c && !s.conns[s.wait[id]].closed
      then forall y, other :: y in s.conns ==>
             (Owed(s, c, r, y, other) <==> y == s.wait[id] && other == AnswerWithId(id, r.body))
      else NoneOwed(s, c, r)
  {
  }

  /** Nothing else delivers. */
  lemma NothingOwed(s: State, c: Connect, r: Request)
    requires c in s.conns
    requires r.kind == Echo || (s.conns[c].noid && s.conns[c].status != WorkerWaitResult)
          || (r.kind != Result && !(s.conns[c].noid && s.conns[c].workerMode))
    ensures NoneOwed(s, c, r)
  {
  }

  /** In worker mode, what follows the result. */
  lemma NextRoutes(s: State, a: State, c: Connect, r: Request, rnd: Entropy)
    requires Sane(s) && c in s.conns && !s.conns[c].closed && s.conns[c].workerMode && r.kind != Echo
    requires s.conns[c].status in {WorkerModeAsync, WorkerWaitResult}
    requires c in a.conns && a == Upd(s, c, a.conns[c]) && Wf(a) && Prepared(s, a, c, r) && a.conns[c].body == r.body
    requires a.conns[c].client == s.conns[c].client && a.conns[c].status == s.conns[c].status
    ensures Routed(s, NextJob(a, c, r.stop, rnd), c, r)
  {
    hide Sane, SaneBut, Balanced, ConnOk, Wf, Grounded, ConnsLive, WorkerResultNoid, Stop, RpcAdd, Prepared, Calm;
    hide Routed, Owing, Owed, NoneOwed, OneHears;
    SaneOn(s, c);
    WorkingNoid(s.conns[c]);
    var t := NextJob(a, c, r.stop, rnd);
    if s.conns[c].status == WorkerModeAsync {
      NothingOwed(s, c, r);
      StopCalm(a, c);
      RpcAddCalm(a, c, rnd);
      CalmRoutes(s, a, t, c, r);
    } else {
      OwingIfWaiting(s.conns[c]);
      ServedClient(s, c);
      OwingClient(s.conns[c]);
      var x := s.conns[c].client.value;
      NoidHeard(a, c);
      var b := WorkerResultNoid(a, c).s;
      StopCalm(b, c);
      RpcAddCalm(b, c, rnd);
      OwedByNoid(s, c, r);
      assert a.conns[x] == s.conns[x];
      if s.conns[x].closed {
        CalmTrans(a.conns, b.conns, t.conns);
        CalmRoutes(s, a, t, c, r);
      } else {
        HearsOn(a.conns, b.conns, t.conns, x, Answer(r.body));
        OneRoutes(s, a, t, c, r, x, Answer(r.body));
      }
    }
  }

  lemma WorkingNoid(v: Conn)
    requires ConnOk(v) && !v.closed && v.workerMode && v.status != Net
    ensures v.noid
  {
  }

  lemma OwingClient(v: Conn)
    requires Owing(v)
    ensures v.client.Some? && v.noid && v.status == WorkerWaitResult
  {
  }

  /** A worker without ids that answers, or does something else instead. */
  lemma FinishRoutes(s: State, a: State, c: Connect, r: Request)
    requires Sane(s) && c in s.conns && !s.conns[c].closed && !s.conns[c].workerMode && s.conns[c].noid
    requires r.kind != Echo && s.conns[c].status == WorkerWaitResult
    requires c in a.conns && a == Upd(s, c, a.conns[c]) && Wf(a) && Prepared(s, a, c, r) && a.conns[c].body == r.body
    requires a.conns[c].client == s.conns[c].client
    ensures Routed(s, FinishJob(a, c, r.kind == Result), c, r)
  {
    hide Sane, SaneBut, Balanced, ConnOk, Wf, Grounded, ConnsLive, WorkerResultNoid, Prepared, Calm, OneHears;
    hide Routed, Owing, Send, Acknowledge, Owed, NoneOwed;
    SaneOn(s, c);
    var t := FinishJob(a, c, r.kind == Result);
    if r.kind != Result {
      NothingOwed(s, c, r);
      SendCalm(a, c, ResultExpected);
      CalmRoutes(s, a, t, c, r);
    } else {
      OwingIfWaiting(s.conns[c]);
      ServedClient(s, c);
      OwingClient(s.conns[c]);
      var x := s.conns[c].client.value;
      NoidHeard(a, c);
      var d := WorkerResultNoid(a, c);
      AcknowledgeCalm(d.s, c, d.code);
      OwedByNoid(s, c, r);
      assert a.conns[x] == s.conns[x];
      if s.conns[x].closed {
        CalmTrans(a.conns, d.s.conns, t.conns);
        CalmRoutes(s, a, t, c, r);
      } else {
        HearsOn(a.conns, d.s.conns, t.conns, x, Answer(r.body));
        OneRoutes(s, a, t, c, r, x, Answer(r.body));
      }
    }
  }

  lemma AcknowledgeCalm(s: State, c: Connect, code: int)
    requires Wf(s) && c in s.conns
    ensures Calm(s.conns, Acknowledge(s, c, code).conns)
  {
    hide Calm, Wf, Grounded, ConnsLive, Send, SetStatus;
    TurnedOffCalm(s, c, if code == 0 then Ok else if code == -2 then ClientGone else WrongId, Net);
  }

  /** A result with an id. */
  lemma ResultRoutes(s: State, b: State, c: Connect, r: Request)
    requires Sane(s) && c in s.conns && !s.conns[c].closed && s.conns[c].status == Net && !s.conns[c].noid
    requires r.kind == Result && c in b.conns && b == Upd(s, c, b.conns[c]) && Wf(b) && Prepared(s, b, c, r)
    requires b.conns[c].body == r.body && b.conns[c].id == r.id && b.conns[c].jsonId == r.jsonId
    ensures Routed(s, RpcResult(b, c), c, r)
  {
    hide Sane, SaneBut, Balanced, ConnOk, Wf, Grounded, ConnsLive, WorkerResult, Prepared, Calm, OneHears;
    hide Routed, Send, SetStatus, Acknowledge, Owed, NoneOwed;
    SaneOn(s, c);
    OwedById(s, c, r);
    var t := RpcResult(b, c);
    var id := if r.id != "" then r.id else r.jsonId;
    if id == "" {
      TurnedOffCalm(b, c, NoId, Net);
      CalmRoutes(s, b, t, c, r);
    } else {
      IdHeard(b, id, r.body);
      var d := WorkerResult(b, id, Some(r.body));
      AcknowledgeCalm(d.s, c, d.code);
      if id in s.wait {
        EntryWaits(s, id);
        var x := s.wait[id];
        if !s.conns[x].closed {
          assert x != c && b.conns[x] == s.conns[x];
          HearsOn(b.conns, d.s.conns, t.conns, x, AnswerWithId(id, r.body));
          OneRoutes(s, b, t, c, r, x, AnswerWithId(id, r.body));
          return;
        }
        EntryStays(s, b, c, x);
      }
      CalmTrans(b.conns, d.s.conns, t.conns);
      CalmRoutes(s, b, t, c, r);
    }
  }

  lemma EntryStays(s: State, b: State, c: Connect, x: Connect)
    requires x in s.conns && s.conns[x].closed && c in s.conns && !s.conns[c].closed
    requires c in b.conns && b == Upd(s, c, b.conns[c])
    ensures x in b.conns && b.conns[x].closed
  {
  }

  /** A call or a registration delivers nothing. */
  lemma OrdinaryRoutes(s: State, b: State, c: Connect, r: Request, rnd: Entropy)
    requires Sane(s) && c in s.conns && !s.conns[c].closed && s.conns[c].status == Net && !s.conns[c].noid
    requires r.kind != Echo && c in b.conns && b == Upd(s, c, b.conns[c]) && Wf(b) && Prepared(s, b, c, r)
    requires b.conns[c].body == r.body && b.conns[c].id == r.id && b.conns[c].jsonId == r.jsonId
    ensures Routed(s, Perform(b, c, r, rnd), c, r)
  {
    hide Sane, Wf, Grounded, ConnsLive, RpcAdd, ClientRequest, RpcResult, Prepared, Calm, Routed, Send, Owed, NoneOwed;
    var t := Perform(b, c, r, rnd);
    if BreaksOff(b.conns[c], r) {
      BrokenOwesNone(s, c, r);
      SendCalm(b, c, InvalidData);
      CalmRoutes(s, b, t, c, r);
    } else if r.kind == Result {
      ResultRoutes(s, b, c, r);
    } else {
      NothingOwed(s, c, r);
      ClientRequestCalm(b, c, r.name, rnd);
      RpcAddCalm(b, c, rnd);
      CalmRoutes(s, b, t, c, r);
    }
  }

  lemma BrokenOwesNone(s: State, c: Connect, r: Request)
    requires c in s.conns && !s.conns[c].noid && (r.kind == Result ==> r.id == "" && r.jsonId == "")
    ensures NoneOwed(s, c, r)
  {
  }

  lemma CompleteRoutes(s: State, c: Connect, r: Request, now: nat, rnd: Entropy)
    requires Sane(s) && Wf(s) && c in s.conns && !s.conns[c].closed && s.conns[c].started
    ensures Routed(s, Complete(s, c, r, now, rnd), c, r)
  {
    hide Sane, SaneBut, Balanced, ConnOk, Wf, Grounded, ConnsLive, Filled, Marked, Perform, NextJob, FinishJob;
    hide Prepared, Routed, Send, Calm, NoneOwed, BrokenMode, Quiet;
    SaneOn(s, c);
    var v := s.conns[c];
    var f := Filled(v, r, now);
    FilledOk(v, r, now);
    StartedStatus(v);
    FilledLive(s, c, r, now);
    FilledPrepared(s, c, r, now);
    FilledSays(v, r, now);
    UpdWf(s, c, f);
    var a := Upd(s, c, f);
    NotBrokenMode(v, r);
    if r.kind == Echo {
      NothingOwed(s, c, r);
      SendCalm(a, c, Ok);
      CalmRoutes(s, a, Send(a, c, Ok), c, r);
    } else if f.workerMode {
      NextRoutes(s, a, c, r, rnd);
    } else if f.noid {
      FinishRoutes(s, a, c, r);
    } else {
      MarkedWf(a, c, r);
      UpdTwice(s, c, f, Marked(f, r));
      OrdinaryRoutes(s, Upd(a, c, Marked(f, r)), c, r, rnd);
    }
  }

  lemma NotBrokenMode(v: Conn, r: Request)
    ensures v.workerMode || v.noid || r.kind == Echo ==> !BrokenMode(v, r)
  {
  }

  // Steps

  /** x hears the results that this event delivers to it, and no others; no other registration breaks off. */
  ghost predicate RoutedStep(s: State, t: State, e: Event) {
    if e.Completed? then Routed(s, t, e.c, e.r)
    else
      && (forall x :: x in s.conns && x in t.conns ==> Keeps(s.conns[x], t.conns[x]))
      && (forall x :: x in t.conns && x !in s.conns ==> e.Accepted? && t.conns[x] == NewConnection(e.loop))
  }

  lemma StepRoutes(s: State, e: Event)
    requires Sane(s) && Wf(s) && Enabled(s, e)
    ensures RoutedStep(s, Step(s, e), e)
  {
    hide Sane, Wf, Grounded, ConnsLive, Routed, Unclaimed, OwnEntry, Keeps;
    hide Begin, Complete, Disconnect, CheckTimeout, Clean, DeleteConnections, Accept;
    match e
    case Accepted(c, loop) => BirthKeeps(s, c, loop);
    case Begun(c) => BeginCalm(s, c);
    case Completed(c, r, now, rnd) => LifeProofs.TableIsOpen(s, c); CompleteRoutes(s, c, r, now, rnd);
    case Disconnected(c) => DisconnectCalm(s, c);
    case TimedOut(now) => TimeoutsCalm(s, now);
    case Cleaned(locked) => CleanCalm(s, 0, locked);
    case Deleted(loop) => DeathKeeps(s, loop);
  }

  lemma BirthKeeps(s: State, c: Connect, loop: nat)
    requires c !in s.conns
    ensures var t := Accept(s, c, loop);
      && (forall x :: x in s.conns ==> x in t.conns && Keeps(s.conns[x], t.conns[x]))
      && (forall x :: x in t.conns && x !in s.conns ==> t.conns[x] == NewConnection(loop))
  {
  }

  lemma DeathKeeps(s: State, loop: nat)
    requires Wf(s)
    ensures var t := DeleteConnections(s, loop);
      t.conns.Keys <= s.conns.Keys && forall x :: x in s.conns && x in t.conns ==> Keeps(s.conns[x], t.conns[x])
  {
    hide Wf, Grounded, ConnsLive, Victims, Carried;
  }

  lemma TimeoutsCalm(s: State, now: nat)
    requires Wf(s)
    ensures Calm(s.conns, CheckTimeout(s, now).conns)
  {
    hide Calm, TimeoutAll;
    FlatLive(s.workers, s.conns.Keys);
    TimeoutAllCalm(s, Flat(s.workers), now);
  }
}
