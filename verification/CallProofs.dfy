/** client_request keeps the broker sane. */
module CallProofs {
  import opened Connections
  import opened Deques
  import opened Names
  import opened BrokerState
  import opened Common
  import opened References
  import opened Ledger
  import opened Invariants
  import opened ClientRequests

  lemma {:induction false} ScanWorkersSane(s: State, q: nat, l: nat, required: string, i: nat, c: Connect)
    requires SaneBut(s, c) && q < |s.workers| && l < s.threads && i <= |s.workers[q][l]|
    ensures var r := ScanWorkers(s, q, l, required, i);
      && SaneBut(r.s, c) && OnlyLinks(s, r.s)
      && (r.FoundWorker? ==> r.l == l && Ready(r.s.conns[r.s.workers[q][l][r.i]]))
    decreases |s.workers[q][l]| - i
  {
    hide ConnOk, Core, WorkersLive, ClientsLive, ListsLive, WaitLive, ConnsLive, Exact, Placed, WaitOk, ItemsOk, Opened;
    var d := s.workers[q][l];
    if i < |d| {
      EntryLive(s, q, l, i);
      if !Suits(required, s.conns[d[i]].connectionId) {
        ScanWorkersSane(s, q, l, required, i + 1, c);
      } else if !Ready(s.conns[d[i]]) {
        EraseWorkerWf(s, q, l, i);
        EraseWorkerSane(s, q, l, i, c);
        ScanWorkersSane(EraseWorker(s, q, l, i), q, l, required, i, c);
      }
    }
  }

  lemma OnlyLinksRefl(s: State)
    ensures OnlyLinks(s, s)
  {
  }

  lemma OnlyLinksTrans(s: State, t: State, u: State)
    requires OnlyLinks(s, t) && OnlyLinks(t, u)
    ensures OnlyLinks(s, u)
  {
    hide Core;
  }

  lemma {:induction false} FindWorkerSane(s: State, q: nat, local: nat, required: string, index: int, c: Connect)
    requires SaneBut(s, c) && q < |s.workers| && local < s.threads && -1 <= index
    ensures var r := FindWorker(s, q, local, required, index);
      && SaneBut(r.s, c) && OnlyLinks(s, r.s)
      && (r.FoundWorker? ==> Ready(r.s.conns[r.s.workers[q][r.l][r.i]]))
    decreases s.threads - index
  {
    OnlyLinksRefl(s);
    hide ConnOk, Core, Grounded, Exact, Placed, WaitOk, ItemsOk, Opened, ScanWorkers, OnlyLinks;
    if index < s.threads {
      if index == local {
        FindWorkerSane(s, q, local, required, index + 1, c);
      } else {
        ScanWorkersSane(s, q, LoopAt(index, local), required, 0, c);
        match ScanWorkers(s, q, LoopAt(index, local), required, 0)
        case FoundWorker(t, l, i) =>
        case NoWorker(t) =>
          FindWorkerSane(t, q, local, required, index + 1, c);
          OnlyLinksTrans(s, t, FindWorker(t, q, local, required, index + 1).s);
      }
    }
  }

  /** A connection whose call is being handled. */
  predicate Asking(v: Conn) {
    && !v.closed && v.status == Net && v.client.None?
    && !v.started && !v.failOnDisconnect && !v.noid && !v.workerMode && !v.spoilt
    && v.calls == Closed(v.out) + 1
  }

  lemma ReadyHasNoClient(v: Conn)
    requires Ready(v) && ConnOk(v)
    ensures v.client.None? && !v.started
  {
  }

  lemma TellBalanced(s: State, c: Connect, r: Reply, held: multiset<Connect>, owed: multiset<Connect>)
    requires Balanced(s, held, owed) && c in s.conns
    ensures Balanced(Upd(s, c, Told(s.conns[c], r)), held, owed)
  {
    hide Balanced;
    BalancedUpd(s, c, Told(s.conns[c], r), held, owed);
  }

  lemma TellSane(s: State, c: Connect, r: Reply)
    requires SaneBut(s, c) && Asking(s.conns[c]) && ClosesCall(r)
    ensures Sane(Send(s, c, r))
  {
    hide Balanced, ConnOk;
    RefusedOk(s.conns[c], r);
    hide Closed;
    TellBalanced(s, c, r, multiset{}, multiset{});
    OneTouched(s, Upd(s, c, Told(s.conns[c], r)), c, Told(s.conns[c], r));
  }

  /** The caller starts to wait; its call and the new pointers to it are in hand. */
  lemma CalledBalanced(s: State, c: Connect)
    requires Balanced(s, multiset{}, multiset{}) && c in s.conns && Asking(s.conns[c])
    ensures Balanced(Upd(s, c, Called(s.conns[c], 1)), multiset{c}, multiset{c})
    ensures Balanced(Upd(s, c, Called(s.conns[c], 2)), multiset{c, c}, multiset{c})
  {
    hide Balanced, Closed;
    OpenHasLink(s, c, multiset{}, multiset{});
    var v := s.conns[c];
    BalancedCall(s, c, multiset{}, multiset{});
    var a := SetStatus(s, c, ClientWaitResult);
    assert multiset{} + multiset{c} == multiset{c};
    LinkCalled(a, s, c, v, 0, multiset{});
    LinkCalled(Link(a, c), s, c, v, 1, multiset{c});
    assert multiset{c} + multiset{c} == multiset{c, c};
  }

  lemma LinkCalled(a: State, s: State, c: Connect, v: Conn, links: nat, held: multiset<Connect>)
    requires c in s.conns && a == Upd(s, c, Called(v, links)) && Balanced(a, held, multiset{c}) && v.link > 0
    ensures Link(a, c) == Upd(s, c, Called(v, links + 1))
    ensures Balanced(Link(a, c), held + multiset{c}, multiset{c})
  {
    hide Balanced;
    BalancedLink(a, c, held, multiset{c});
    UpdTwice(s, c, Called(v, links), Called(v, links + 1));
  }

  lemma AsyncServedOk(v: Conn, r: Reply)
    requires Ready(v) && ConnOk(v) && r.AsyncTask?
    ensures ConnOk(Served(v, StatusAfterAsync(v), r))
  {
    hide Closed;
    ClosedAppend(v.out, r);
  }

  lemma RefusedOk(v: Conn, r: Reply)
    requires Asking(v) && ClosesCall(r)
    ensures ConnOk(Told(v, r))
  {
    hide Closed;
    ClosedAppend(v.out, r);
  }

  lemma AsyncQuiet(v: Conn, r: Reply)
    requires Ready(v) && v.client.None?
    ensures Quiet(v, Served(v, StatusAfterAsync(v), r))
  {
  }

  lemma AsyncHistory(t: State, w: Connect, vw: Conn, c: Connect, vc: Conn, name: string)
    requires w in t.conns && c in t.conns
    requires vw == Served(t.conns[w], StatusAfterAsync(t.conns[w]), AsyncTask(Job(t.stamp, name, t.conns[c].body)))
    requires vc == Told(t.conns[c], AsyncAccepted)
    requires Balanced(Upd2(t, w, vw, c, vc), multiset{}, multiset{})
    ensures Balanced(DispatchAsync(t, w, c, name), multiset{}, multiset{})
    ensures DispatchAsync(t, w, c, name).conns == t.conns[w := vw][c := vc]
  {
    hide Balanced, Told, Served, StatusAfterAsync;
    var job := Job(t.stamp, name, t.conns[c].body);
    BalancedHistory(Upd2(t, w, vw, c, vc), t.stamp + 1, t.accepted + multiset{job}, t.handed + multiset{job});
  }

  lemma DispatchAsyncSane(t: State, w: Connect, c: Connect, name: string)
    requires SaneBut(t, c) && w in t.conns && Ready(t.conns[w]) && Asking(t.conns[c])
    ensures Sane(DispatchAsync(t, w, c, name))
  {
    var v, u := t.conns[w], t.conns[c];
    var vw, vc := Served(v, StatusAfterAsync(v), AsyncTask(Job(t.stamp, name, u.body))), Told(u, AsyncAccepted);
    hide ConnOk, Balanced, Closed;
    AsyncServedOk(v, AsyncTask(Job(t.stamp, name, u.body)));
    ReadyHasNoClient(v);
    RefusedOk(u, AsyncAccepted);
    AsyncQuiet(v, AsyncTask(Job(t.stamp, name, u.body)));
    assert w != c;
    hide Quiet, Ready, StatusAfterAsync, ClosesCall;
    BalancedUpd(t, w, vw, multiset{}, multiset{});
    TellBalanced(Upd(t, w, vw), c, AsyncAccepted, multiset{}, multiset{});
    AsyncHistory(t, w, vw, c, vc, name);
    hide DispatchAsync;
    TwoTouched(t, DispatchAsync(t, w, c, name), w, vw, c, vc);
  }

  // A worker without ids takes the call.

  lemma ServedLinkedOk(v: Conn, c: Connect, r: Reply)
    requires ConnOk(v) && Ready(v) && v.noid && r.Task?
    ensures ConnOk(ServedLinked(v, c, r))
  {
    hide Closed;
    ClosedAppend(v.out, r);
  }

  lemma CalledOk(v: Conn, links: nat)
    requires Asking(v)
    ensures ConnOk(Called(v, links))
  {
  }

  lemma DispatchLinkedSane(t: State, w: Connect, c: Connect, name: string)
    requires SaneBut(t, c) && w in t.conns && Ready(t.conns[w]) && t.conns[w].noid && Asking(t.conns[c])
    ensures Sane(DispatchLinked(t, w, c, name))
  {
    var v, u := t.conns[w], t.conns[c];
    var vw, vc := ServedLinked(v, c, Task(name, u.body)), Called(u, 1);
    ReadyHasNoClient(v);
    ServedLinkedOk(v, c, Task(name, u.body));
    CalledOk(u, 1);
    hide ConnOk, Balanced;
    CalledBalanced(t, c);
    var b := Upd(t, c, vc);
    assert multiset{} + multiset{c} == multiset{c};
    BalancedServe(b, w, c, vw, multiset{}, multiset{});
    hide ServedLinked, Called, Asking, Ready;
    Upd2Swap(t, c, vc, w, vw);
    TwoTouched(t, DispatchLinked(t, w, c, name), w, vw, c, vc);
  }

  // A worker that echoes the id takes the call.

  lemma ServedWithIdOk(v: Conn, c: Connect, r: Reply)
    requires ConnOk(v) && Ready(v) && !v.noid && r.TaskWithId?
    ensures ConnOk(ServedWithId(v, c, r))
  {
    hide Closed;
    ClosedAppend(v.out, r);
  }

  /** w gets its job, with a pointer to c if it must not vanish silently; the other pointer is still in hand. */
  lemma PointedBalanced(s: State, w: Connect, c: Connect, r: Reply)
    requires w in s.conns && c in s.conns && w != c
    requires Ready(s.conns[w]) && s.conns[w].client.None?
    requires Balanced(s, if s.conns[w].failOnDisconnect then multiset{c, c} else multiset{c}, multiset{c})
    ensures Balanced(Upd(s, w, ServedWithId(s.conns[w], c, r)), multiset{c}, multiset{c})
  {
    hide Balanced;
    var v := s.conns[w];
    if v.failOnDisconnect {
      assert multiset{c} + multiset{c} == multiset{c, c};
      BalancedPoint(s, w, c, multiset{c}, multiset{c});
      var a := SetClient(s, w, Some(c));
      BalancedUpd(a, w, ServedWithId(v, c, r), multiset{c}, multiset{c});
      UpdTwice(s, w, v.(client := Some(c)), ServedWithId(v, c, r));
    } else {
      BalancedUpd(s, w, ServedWithId(v, c, r), multiset{c}, multiset{c});
    }
  }

  lemma DispatchWithIdSane(t: State, w: Connect, c: Connect, name: string)
    requires SaneBut(t, c) && w in t.conns && Ready(t.conns[w]) && !t.conns[w].noid && Asking(t.conns[c])
    requires t.conns[c].id != "" && t.conns[c].id !in t.wait
    ensures Sane(DispatchWithId(t, w, c, name))
  {
    var v, u := t.conns[w], t.conns[c];
    var r := TaskWithId(u.id, name, u.body);
    var vw, vc := ServedWithId(v, c, r), Called(u, LinksGiven(v));
    ReadyHasNoClient(v);
    ServedWithIdOk(v, c, r);
    CalledOk(u, LinksGiven(v));
    hide ConnOk, Balanced;
    CalledBalanced(t, c);
    var b := Upd(t, c, vc);
    PointedBalanced(b, w, c, r);
    Upd2Swap(t, c, vc, w, vw);
    var d := Upd2(t, w, vw, c, vc);
    assert multiset{} + multiset{c} == multiset{c};
    BalancedWaitIn(d, u.id, c, multiset{}, multiset{});
    TwoTouched(t, DispatchWithId(t, w, c, name), w, vw, c, vc);
  }

  // The id is taken.

  lemma RollbackSane(t: State, q: nat, w: Connect, c: Connect)
    requires SaneBut(t, c) && q < |t.workers| && w in t.conns && Ready(t.conns[w]) && w != c
    requires Asking(t.conns[c])
    ensures Sane(Rollback(t, q, w, c))
  {
    hide ConnOk, Balanced, Closed;
    var l := t.conns[w].nloop;
    OpenHasLink(t, w, multiset{}, multiset{});
    HomeExists(t, q, w);
    RefusedOk(t.conns[c], CollisionId);
    RelinkedOk(t.conns[w], t.conns[w].link + 1);
    BalancedLink(t, w, multiset{}, multiset{});
    var a := Link(t, w);
    BalancedWorkerIn(a, q, l, 0, w, multiset{}, multiset{});
    var b := SetWorkers(a, q, l, InsertAt(a.workers[q][l], 0, w));
    TellBalanced(b, c, CollisionId, multiset{}, multiset{});
    TwoTouched(t, Rollback(t, q, w, c), w, t.conns[w].(link := t.conns[w].link + 1), c, Told(t.conns[c], CollisionId));
  }

  lemma HomeExists(s: State, q: nat, w: Connect)
    requires Balanced(s, multiset{}, multiset{}) && q < |s.workers| && w in s.conns
    ensures Wf(s) && |s.workers| == |s.clients| == |s.lists|
    ensures s.conns[w].nloop < s.threads && s.conns[w].nloop < |s.workers[q]| && s.conns[w].nloop < |s.clients[q]|
  {
  }

  /** The erased entry of w was only a pointer: w itself is as it was. */
  lemma StillReady(s: State, t: State, w: Connect, c: Connect)
    requires OnlyLinks(s, t) && w in s.conns && c in s.conns
    requires Ready(s.conns[w]) && Asking(s.conns[c])
    ensures Ready(t.conns[w]) && t.conns[w].noid == s.conns[w].noid && Asking(t.conns[c])
    ensures t.conns[c].noResponse == s.conns[c].noResponse
  {
    assert Core(t.conns[w]) == Core(s.conns[w]) && Core(t.conns[c]) == Core(s.conns[c]);
  }

  lemma DispatchSane(s: State, q: nat, l: nat, i: nat, c: Connect, name: string, rnd: Entropy)
    requires SaneBut(s, c) && q < |s.workers| && l < s.threads && l < |s.workers[q]| && i < |s.workers[q][l]|
    requires Wf(s) && s.workers[q][l][i] in s.conns && Ready(s.conns[s.workers[q][l][i]]) && Asking(s.conns[c])
    ensures Sane(Dispatch(s, q, l, i, c, name, rnd))
  {
    hide Balanced, ConnOk, Wf, OnlyLinks, Grounded, ConnsLive;
    var w := s.workers[q][l][i];
    EraseWorkerWf(s, q, l, i);
    EraseWorkerSane(s, q, l, i, c);
    var t := EraseWorker(s, q, l, i);
    ErasedShape(s, q, l, i);
    StillReady(s, t, w, c);
    hide EraseWorker;
    if t.conns[c].noResponse {
      DispatchAsyncSane(t, w, c, name);
    } else if t.conns[w].noid {
      DispatchLinkedSane(t, w, c, name);
    } else {
      ResolveIdWf(t, c, rnd);
      DispatchByIdSane(t, q, w, c, name, rnd);
    }
  }

  lemma ErasedShape(s: State, q: nat, l: nat, i: nat)
    requires q < |s.workers| && l < |s.workers[q]| && i < |s.workers[q][l]| && s.workers[q][l][i] in s.conns
    ensures |EraseWorker(s, q, l, i).workers| == |s.workers|
    ensures EraseWorker(s, q, l, i).conns.Keys == s.conns.Keys
  {
  }

  lemma DispatchByIdSane(t: State, q: nat, w: Connect, c: Connect, name: string, rnd: Entropy)
    requires SaneBut(t, c) && q < |t.workers| && w in t.conns && Ready(t.conns[w]) && !t.conns[w].noid
    requires Asking(t.conns[c])
    requires Wf(ResolveId(t, c, rnd))
    ensures var u := ResolveId(t, c, rnd);
      Sane(if u.conns[c].id in u.wait then Rollback(u, q, w, c) else DispatchWithId(u, w, c, name))
  {
    hide Balanced, ConnOk, Wf, Closed, Grounded, ConnsLive;
    NotWaiting(t, c);
    ResolveIdSane(t, c, rnd, c);
    var u := ResolveId(t, c, rnd);
    assert w != c;
    assert u.conns[w] == t.conns[w] && Asking(u.conns[c]);
    if u.conns[c].id in u.wait {
      RollbackSane(u, q, w, c);
    } else {
      DispatchWithIdSane(u, w, c, name);
    }
  }

  lemma EnqueueSane(s: State, q: nat, c: Connect, name: string)
    requires SaneBut(s, c) && Wf(s) && q < |s.clients| && Asking(s.conns[c])
    ensures Sane(Enqueue(s, q, c, name))
  {
    hide Balanced, ConnOk, Closed;
    var v := s.conns[c];
    if v.ifPresent && s.lists[q] == [] {
      TellSane(s, c, NoContent);
    } else if v.noResponse {
      EnqueueAsyncSane(s, q, c, name);
    } else {
      EnqueueSyncSane(s, q, c, name);
    }
  }

  lemma BalancedStamp(s: State, stamp: nat, accepted: multiset<Job>)
    requires Balanced(s, multiset{}, multiset{})
    ensures Balanced(s.(stamp := stamp, accepted := accepted), multiset{}, multiset{})
  {
    hide Balanced;
    BalancedHistory(s, stamp, accepted, s.handed);
  }

  /** The client of an asynchronous call is done with it. */
  lemma IsDone(s: State, c: Connect)
    requires SaneBut(s, c) && Asking(s.conns[c])
    ensures var u := Told(s.conns[c], AsyncAccepted).(requiredWorker := "", body := "");
      Balanced(Upd(s, c, u), multiset{}, multiset{}) && ConnOk(u)
  {
    hide Balanced, ConnOk, Closed;
    var v := s.conns[c];
    var u := Told(v, AsyncAccepted).(requiredWorker := "", body := "");
    ClosedAppend(v.out, AsyncAccepted);
    assert ClosesCall(AsyncAccepted) && u.out == v.out + [AsyncAccepted];
    UnaskedOk(v, u);
    BalancedUpd(s, c, u, multiset{}, multiset{});
  }

  lemma EnqueueAsyncSane(s: State, q: nat, c: Connect, name: string)
    requires SaneBut(s, c) && Wf(s) && q < |s.clients| && Asking(s.conns[c]) && s.conns[c].noResponse
    requires !(s.conns[c].ifPresent && s.lists[q] == [])
    ensures Sane(Enqueue(s, q, c, name))
  {
    hide Balanced, ConnOk, Closed;
    var v := s.conns[c];
    var l := v.nloop;
    HomeExists(s, q, c);
    var d := s.clients[q][l];
    var m := AsyncMessage(s, v, name);
    OneCaller(m);
    hide Wf, Grounded, ConnsLive;
    var u := Told(v, AsyncAccepted).(requiredWorker := "", body := "");
    IsDone(s, c);
    var a := Upd(s, c, u);
    var none: multiset<Connect> := multiset{};
    assert none + multiset(Callers([m])) == none;
    BalancedMessageIn(a, q, l, Slot(d, m.priority, |d|), m, none, none);
    var b := SetClients(a, q, l, InsertAt(d, Slot(d, m.priority, |d|), m));
    BalancedStamp(b, s.stamp + 1, s.accepted + multiset{JobOf(m)});
    OneTouched(s, Enqueue(s, q, c, name), c, u);
  }

  lemma UnaskedOk(v: Conn, u: Conn)
    requires Asking(v) && u.calls == Closed(u.out)
    requires u == v.(requiredWorker := "", body := "", out := u.out)
    ensures ConnOk(u)
  {
  }

  lemma EnqueueSyncSane(s: State, q: nat, c: Connect, name: string)
    requires SaneBut(s, c) && Wf(s) && q < |s.clients| && Asking(s.conns[c]) && !s.conns[c].noResponse
    requires !(s.conns[c].ifPresent && s.lists[q] == [])
    ensures Sane(Enqueue(s, q, c, name))
  {
    hide Balanced, ConnOk, Closed;
    var v := s.conns[c];
    var l := v.nloop;
    HomeExists(s, q, c);
    var d := s.clients[q][l];
    var m := SyncMessage(s, c, v);
    OneCaller(m);
    hide Wf, Grounded, ConnsLive;
    var u := Called(v, 1).(requiredWorker := "", name := name);
    var one := multiset{c};
    AwaitsTurn(s, c, name);
    var a := Upd(s, c, u);
    assert multiset{} + multiset(Callers([m])) == one;
    BalancedMessageIn(a, q, l, Slot(d, m.priority, |d|), m, multiset{}, multiset{});
    var b := SetClients(a, q, l, InsertAt(d, Slot(d, m.priority, |d|), m));
    BalancedStamp(b, s.stamp + 1, s.accepted);
    OneTouched(s, Enqueue(s, q, c, name), c, u);
  }

  lemma AwaitsTurn(s: State, c: Connect, name: string)
    requires SaneBut(s, c) && Asking(s.conns[c])
    ensures var u := Called(s.conns[c], 1).(requiredWorker := "", name := name);
      Balanced(Upd(s, c, u), multiset{c}, multiset{c}) && ConnOk(u)
  {
    hide Balanced, ConnOk, Closed;
    var v := s.conns[c];
    var u := Called(v, 1).(requiredWorker := "", name := name);
    CalledOk(v, 1);
    WaitingOk(Called(v, 1), name);
    CalledBalanced(s, c);
    BalancedUpd(Upd(s, c, Called(v, 1)), c, u, multiset{c}, multiset{c});
    UpdTwice(s, c, Called(v, 1), u);
  }

  lemma WaitingOk(v: Conn, name: string)
    requires ConnOk(v) && v.status == ClientWaitResult
    ensures ConnOk(v.(requiredWorker := "", name := name))
  {
  }

  /** client_request, from a connection that is in order and idle. */
  lemma ClientRequestSane(s: State, c: Connect, name: string, rnd: Entropy)
    requires SaneBut(s, c) && Wf(s)
    requires Asking(s.conns[c].(calls := s.conns[c].calls + 1))
    ensures Sane(ClientRequest(s, c, name, rnd))
  {
    hide Balanced, ConnOk, Closed, Seek, Grounded;
    var v := s.conns[c].(calls := s.conns[c].calls + 1);
    BalancedUpd(s, c, v, multiset{}, multiset{});
    var s1 := Upd(s, c, v);
    UpdWf(s, c, v) by { ConnIsLive(s, c); }
    match FoundQueue(s1, name)
    case None => TellSane(s1, c, NotFound);
    case Some(q) => SeekSane(s1, q, c, name, rnd);
  }

  lemma SeekSane(s: State, q: nat, c: Connect, name: string, rnd: Entropy)
    requires SaneBut(s, c) && Wf(s) && Asking(s.conns[c]) && q < |s.lists|
    ensures Sane(Seek(s, q, c, name, rnd))
  {
    hide Balanced, ConnOk, Closed, OnlyLinks, FindWorker, Enqueue, Dispatch, Grounded;
    var v := s.conns[c];
    ConnIsLive(s, c);
    FindWorkerSane(s, q, v.nloop, v.requiredWorker, -1, c);
    match FindWorker(s, q, v.nloop, v.requiredWorker, -1)
    case NoWorker(t) =>
      StillAsking(s, t, c);
      assert q < |t.clients|;
      EnqueueSane(t, q, c, name);
    case FoundWorker(t, l, i) =>
      StillAsking(s, t, c);
      EntryLive(t, q, l, i);
      DispatchSane(t, q, l, i, c, name, rnd);
  }

  lemma StillAsking(s: State, t: State, c: Connect)
    requires OnlyLinks(s, t) && c in s.conns && Asking(s.conns[c])
    ensures Asking(t.conns[c])
  {
    assert Core(t.conns[c]) == Core(s.conns[c]);
  }
}
