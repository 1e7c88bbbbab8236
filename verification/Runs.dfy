/** The invariant of the broker over every run. */
module Runs {
  import opened Connections
  import opened Deques
  import opened Names
  import opened BrokerState
  import opened Common
  import opened References
  import opened Ledger
  import opened Invariants
  import opened ClientRequests
  import opened WorkerRequests
  import opened WorkerProofs
  import opened Sessions
  import opened SessionProofs
  import opened RequestProofs
  import opened LifeProofs
  import opened Order
  import opened OrderProofs
  import opened OrderWorkers

  ghost predicate Inv(s: State) {
    Sane(s) && Orderly(s)
  }

  // Registering

  lemma RegisteringQuiet(v: Conn)
    ensures var u := Engaged(v);
      && Quiet(v, u) && u.id == v.id && u.out == v.out && u.nloop == v.nloop && u.connectionId == v.connectionId
      && u.status == v.status && u.closed == v.closed && u.name == v.name && u.client == v.client && u.item == v.item
  {
  }

  /** The connection is ready to register. */
  lemma RegisteringStarts(s: State, c: Connect)
    requires Orderly(s) && SaneBut(s, c) && Wf(s) && Idle(s.conns[c].(workerMode := false)) && s.conns[c].name != ""
    ensures var t := Upd(s, c, Engaged(s.conns[c]));
      Orderly(t) && SaneBut(t, c) && Wf(t) && Idle(t.conns[c]) && Aside(s, t)
  {
    hide Orderly, Aside, Balanced, ConnOk, Wf, Settled, Grounded, ConnsLive, Hush, Ready, Idle;
    var v := s.conns[c];
    ConnIsLive(s, c);
    RegisteringQuiet(v);
    RegisteringIdle(v, Engaged(v));
    hide Engaged, Quiet;
    OwnAside(s, c, Engaged(v));
    AsideOrderly(s, Upd(s, c, Engaged(v)));
    UpdWf(s, c, Engaged(v));
    BalancedUpd(s, c, Engaged(v), multiset{}, multiset{});
  }

  lemma NamelessOrderly(s: State, c: Connect)
    requires Orderly(s) && c in s.conns
    ensures c in Upd(s, c, s.conns[c].(workerMode := false)).conns
    ensures Orderly(Send(Upd(s, c, s.conns[c].(workerMode := false)), c, NoName))
  {
    hide Orderly, Aside, Send;
    var t := Upd(s, c, s.conns[c].(workerMode := false));
    OwnAside(s, c, s.conns[c].(workerMode := false));
    AsideOrderly(s, t);
    SendAside(t, c, NoName);
    AsideOrderly(t, Send(t, c, NoName));
  }

  lemma RpcAddOrderly(s: State, c: Connect, rnd: Entropy)
    requires Orderly(s) && SaneBut(s, c) && Wf(s) && Idle(s.conns[c].(workerMode := false))
    ensures Orderly(RpcAdd(s, c, rnd))
  {
    hide Orderly, Balanced, ConnOk, Wf, Grounded, ConnsLive, Idle, AddWorkers, Send, Aside;
    if s.conns[c].name == "" {
      NamelessOrderly(s, c);
    } else {
      RegisteringStarts(s, c);
      AddWorkersOrderly(Upd(s, c, Engaged(s.conns[c])), c, SplitNames(s.conns[c].name, 0, 0), rnd);
    }
  }

  lemma NextJobOrderly(s: State, c: Connect, stop: bool, rnd: Entropy)
    requires Orderly(s) && SaneBut(s, c) && Wf(s) && ConnOk(s.conns[c]) && !s.conns[c].closed && !s.conns[c].started
    requires s.conns[c].workerMode && s.conns[c].status in {WorkerModeAsync, WorkerWaitResult}
    ensures Orderly(NextJob(s, c, stop, rnd))
  {
    var v := s.conns[c];
    WorkerModeNamed(v);
    hide Orderly, Aside, Balanced, ConnOk, Wf, Settled, Grounded, ConnsLive;
    if v.status != WorkerModeAsync {
      OwingIfWaiting(v);
      WorkerResultNoidSane(s, c);
      WorkerResultNoidAside(s, c);
      AsideOrderly(s, WorkerResultNoid(s, c).s);
      ReleasedIdle(v);
    } else {
      AsyncIdle(v);
    }
    hide WorkerResultNoid, Released;
    var a := if v.status != WorkerModeAsync then WorkerResultNoid(s, c).s else s;
    if stop {
      StopAside(a, c);
      AsideOrderly(a, Stop(a, c));
    } else {
      RpcAddOrderly(a, c, rnd);
    }
  }

  lemma OwnAside(a: State, c: Connect, m: Conn)
    requires c in a.conns && m.out == a.conns[c].out && m.nloop == a.conns[c].nloop
    requires m.connectionId == a.conns[c].connectionId && m.status == a.conns[c].status && m.closed == a.conns[c].closed
    ensures Aside(a, Upd(a, c, m))
  {
    UpdAside(a, c, m);
  }

  /** An ordinary request is marked with its kind before it is performed. */
  lemma MarkedStarts(a: State, c: Connect, r: Request)
    requires Orderly(a) && SaneBut(a, c) && Wf(a)
    requires var f := a.conns[c];
      && !f.closed && !f.started && f.status == Net && !f.noid && !f.workerMode && !f.failOnDisconnect && f.client.None?
      && Settled(f) && !f.spoilt
    ensures var b := Upd(a, c, Marked(a.conns[c], r));
      && c in b.conns && Orderly(b) && SaneBut(b, c) && b.conns[c] == Marked(a.conns[c], r) && b.conns[c].status == Net
      && !Ready(b.conns[c])
      && (r.kind in {Add, AddWorkerMode} && !r.broken ==> Idle(b.conns[c].(workerMode := false)))
  {
    hide Orderly, Aside, Balanced, ConnOk, Wf, Grounded, ConnsLive, Closed;
    var m := Marked(a.conns[c], r);
    MarkedQuiet(a.conns[c], r);
    if r.kind in {Add, AddWorkerMode} && !r.broken {
      MarkedIdle(a.conns[c], r);
    }
    hide Marked, Settled, Idle;
    OwnAside(a, c, m);
    hide Quiet;
    BalancedUpd(a, c, m, multiset{}, multiset{});
    AsideOrderly(a, Upd(a, c, m));
  }

  lemma OrdinaryOrderly(a: State, c: Connect, r: Request, rnd: Entropy)
    requires Orderly(a) && SaneBut(a, c) && Wf(a) && r.kind != Echo
    requires var f := a.conns[c];
      && !f.closed && !f.started && f.status == Net && !f.noid && !f.workerMode && !f.failOnDisconnect && f.client.None?
      && Settled(f) && !f.spoilt
    requires Wf(Upd(a, c, Marked(a.conns[c], r)))
    ensures Orderly(Perform(Upd(a, c, Marked(a.conns[c], r)), c, r, rnd))
  {
    hide Orderly, Aside, Balanced, ConnOk, Wf, Closed, Grounded, ConnsLive, Marked, Settled, Idle;
    hide RpcAdd, RpcResult, ClientRequest;
    MarkedStarts(a, c, r);
    var b := Upd(a, c, Marked(a.conns[c], r));
    if BreaksOff(b.conns[c], r) {
      SendAside(b, c, InvalidData);
      AsideOrderly(b, Send(b, c, InvalidData));
    } else {
      HandledOrderly(b, c, r, rnd);
    }
  }

  lemma HandledOrderly(b: State, c: Connect, r: Request, rnd: Entropy)
    requires Orderly(b) && SaneBut(b, c) && Wf(b) && r.kind != Echo && b.conns[c].status == Net
    requires r.kind in {Add, AddWorkerMode} ==> Idle(b.conns[c].(workerMode := false))
    ensures Orderly(Handled(b, c, r, rnd))
  {
    hide Orderly, Aside, Balanced, ConnOk, Wf, Closed, Grounded, ConnsLive, Settled, Idle;
    hide RpcAdd, RpcResult, ClientRequest;
    match r.kind
    case Call => ClientRequestOrderly(b, c, r.name, rnd);
    case AsyncCall => ClientRequestOrderly(b, c, r.name, rnd);
    case Add => RpcAddOrderly(b, c, rnd);
    case AddWorkerMode => RpcAddOrderly(b, c, rnd);
    case Result =>
      RpcResultAside(b, c);
      AsideOrderly(b, RpcResult(b, c));
  }

  lemma CompleteOrderly(s: State, c: Connect, r: Request, now: nat, rnd: Entropy)
    requires Inv(s) && Wf(s) && c in s.conns && !s.conns[c].closed && s.conns[c].started
    requires Unclaimed(s, c, r.setId)
    ensures Orderly(Complete(s, c, r, now, rnd))
  {
    hide Orderly, Aside, Balanced, ConnOk, Wf, Closed, Filled, Quiet, Grounded, ConnsLive, Unclaimed, Tasks;
    var v := s.conns[c];
    var f := Filled(v, r, now);
    FilledOk(v, r, now);
    FilledId(v, r, now);
    StartedStatus(v);
    FilledLive(s, c, r, now);
    UpdWf(s, c, f);
    NotWaiting(s, c);
    BalancedUpd(s, c, f, multiset{}, multiset{});
    var a := Upd(s, c, f);
    SetIdKeepsIff(s, c, f, r.setId);
    if r.kind == Echo {
      SendAside(a, c, Ok);
      AsideOrderly(a, Send(a, c, Ok));
    } else if f.workerMode {
      NextJobOrderly(a, c, r.stop, rnd);
    } else if f.noid {
      FinishJobAside(a, c, r.kind == Result);
      AsideOrderly(a, FinishJob(a, c, r.kind == Result));
    } else {
      OrdinarySettled(f);
      MarkedWf(a, c, r);
      OrdinaryOrderly(a, c, r, rnd);
    }
  }

  lemma FilledId(v: Conn, r: Request, now: nat)
    ensures var f := Filled(v, r, now);
      f.nloop == v.nloop && f.out == v.out && f.connectionId == if r.setId == "" then v.connectionId else r.setId
  {
  }

  /** A connection may take another id, wherever it has entries, exactly when no message there waits for that id. */
  lemma SetIdKeepsIff(s: State, c: Connect, v: Conn, id: string)
    requires Orderly(s) && c in s.conns && v.nloop == s.conns[c].nloop && v.out == s.conns[c].out
    requires v.connectionId == if id == "" then s.conns[c].connectionId else id
    ensures Orderly(Upd(s, c, v)) <==> Unclaimed(s, c, id)
  {
    RenamedDelivered(s, c, v);
    RenamedRegistered(s, c, v);
    RenamedUnmatched(s, c, v, id);
    hide Registered, Sorted, Accounted, Stamped, Delivered, Unmatched, Jobs, Flat, Unclaimed;
  }

  lemma RenamedUnmatched(s: State, c: Connect, v: Conn, id: string)
    requires Unmatched(s.workers, s.clients, s.conns) && c in s.conns
    requires v.connectionId == if id == "" then s.conns[c].connectionId else id
    ensures Unmatched(s.workers, s.clients, s.conns[c := v]) <==> Unclaimed(s, c, id)
  {
    hide Suits;
    var left := s.conns[c := v];
    if Unclaimed(s, c, id) {
      forall q, l, i, k, j |
        && 0 <= q < |s.workers| && 0 <= l < |s.workers[q]| && 0 <= i < |s.workers[q][l]|
        && q < |s.clients| && 0 <= k < |s.clients[q]| && 0 <= j < |s.clients[q][k]|
        ensures Apart(left, s.workers[q][l][i], s.clients[q][k][j])
      {
        assert Apart(s.conns, s.workers[q][l][i], s.clients[q][k][j]);
      }
    } else {
      var q, l, k, j :|
        && 0 <= q < |s.workers| && 0 <= l < |s.workers[q]| && c in s.workers[q][l]
        && q < |s.clients| && 0 <= k < |s.clients[q]| && 0 <= j < |s.clients[q][k]|
        && Suits(s.clients[q][k][j].required, id);
      var i :| 0 <= i < |s.workers[q][l]| && s.workers[q][l][i] == c;
      assert !Apart(left, s.workers[q][l][i], s.clients[q][k][j]);
    }
  }

  lemma RenamedDelivered(s: State, c: Connect, v: Conn)
    requires Orderly(s) && c in s.conns && v.out == s.conns[c].out
    ensures Delivered(s.conns[c := v], s.buried, s.handed)
  {
    hide Registered, Sorted, Accounted, Stamped, Unmatched, Carried, Tasks;
    CarriedSame(s.conns, s.conns[c := v]);
  }

  lemma RenamedRegistered(s: State, c: Connect, v: Conn)
    requires Registered(s.workers, s.conns) && c in s.conns && v.nloop == s.conns[c].nloop
    requires s.conns[c].connectionId != "" ==> v.connectionId != ""
    ensures Registered(s.workers, s.conns[c := v])
  {
    forall q, l, i | 0 <= q < |s.workers| && 0 <= l < |s.workers[q]| && 0 <= i < |s.workers[q][l]|
      ensures Entry(s.conns[c := v], s.workers[q][l][i], l)
    {
      assert Entry(s.conns, s.workers[q][l][i], l);
    }
  }

  // The janitor

  lemma {:induction false} CleanWorkersOrderly(s: State, q: nat, l: nat, i: nat)
    requires Orderly(s) && Wf(s) && q < |s.workers| && l < s.threads && i <= |s.workers[q][l]|
    ensures Orderly(CleanWorkers(s, q, l, i))
    decreases |s.workers[q][l]| - i
  {
    hide Orderly, Grounded;
    if i < |s.workers[q][l]| {
      GroundedEntry(s, q, l, i);
      EraseWorkerWf(s, q, l, i);
      EraseWorkerOrderly(s, q, l, i);
      if !Ready(s.conns[s.workers[q][l][i]]) {
        CleanWorkersOrderly(EraseWorker(s, q, l, i), q, l, i);
      } else {
        CleanWorkersOrderly(s, q, l, i + 1);
      }
    }
  }

  lemma {:induction false} CleanClientsOrderly(s: State, q: nat, l: nat, i: nat)
    requires Orderly(s) && Wf(s) && q < |s.clients| && l < s.threads && i <= |s.clients[q][l]|
    ensures Orderly(CleanClients(s, q, l, i))
    decreases |s.clients[q][l]| - i
  {
    hide Orderly, Grounded;
    if i < |s.clients[q][l]| {
      MessageOfWf(s, q, l, i);
      if Stale(s, s.clients[q][l][i]) {
        EraseMessageWf(s, q, l, i);
        ErasedClients(s, q, l, i);
        EraseMessageOrderly(s, q, l, i);
        CleanClientsOrderly(EraseMessage(s, q, l, i), q, l, i);
      } else {
        CleanClientsOrderly(s, q, l, i + 1);
      }
    }
  }

  lemma {:induction false} CleanLineOrderly(s: State, q: nat, l: nat)
    requires Orderly(s) && Wf(s) && q < |s.lists|
    ensures Orderly(CleanLine(s, q, l))
    decreases s.threads - l
  {
    hide Orderly, Grounded, CleanWorkers, CleanClients;
    if l < s.threads {
      CleanWorkersOrderly(s, q, l, 0);
      var t := CleanWorkers(s, q, l, 0);
      CleanClientsOrderly(t, q, l, 0);
      CleanLineOrderly(CleanClients(t, q, l, 0), q, l + 1);
    }
  }

  lemma {:induction false} CleanOrderly(s: State, q: nat, locked: set<nat>)
    requires Orderly(s) && Wf(s)
    ensures Orderly(Clean(s, q, locked))
    decreases |s.lists| - q
  {
    hide Orderly, Wf, CleanLine, Grounded, ConnsLive;
    if q < |s.lists| {
      if q in locked {
        CleanOrderly(s, q + 1, locked);
      } else {
        CleanLineOrderly(s, q, 0);
        CleanOrderly(CleanLine(s, q, 0), q + 1, locked);
      }
    }
  }

  // Birth and death

  lemma AcceptDeques(s: State, c: Connect, loop: nat)
    requires Registered(s.workers, s.conns) && Unmatched(s.workers, s.clients, s.conns) && c !in s.conns
    ensures var t := Accept(s, c, loop);
      Registered(t.workers, t.conns) && Unmatched(t.workers, t.clients, t.conns)
  {
    var t := Accept(s, c, loop);
    forall q, l, i | 0 <= q < |t.workers| && 0 <= l < |t.workers[q]| && 0 <= i < |t.workers[q][l]|
      ensures Entry(t.conns, t.workers[q][l][i], l)
    {
      assert Entry(s.conns, t.workers[q][l][i], l);
    }
    forall q, l, i, k, j |
      && 0 <= q < |t.workers| && 0 <= l < |t.workers[q]| && 0 <= i < |t.workers[q][l]|
      && q < |t.clients| && 0 <= k < |t.clients[q]| && 0 <= j < |t.clients[q][k]|
      ensures Apart(t.conns, t.workers[q][l][i], t.clients[q][k][j])
    {
      assert Entry(s.conns, t.workers[q][l][i], l) && Apart(s.conns, t.workers[q][l][i], t.clients[q][k][j]);
    }
  }

  lemma AcceptOrderly(s: State, c: Connect, loop: nat)
    requires Orderly(s) && c !in s.conns
    ensures Orderly(Accept(s, c, loop))
  {
    var t := Accept(s, c, loop);
    assert Tasks(t.conns[c].out) == multiset{};
    hide Registered, Unmatched, Sorted, Jobs, Flat, Stamped, Tasks;
    AcceptDeques(s, c, loop);
    hide Carried;
    CarriedNew(s.conns, c, t.conns[c]);
  }

  lemma FreedOrderly(s: State, loop: nat)
    requires Inv(s) && Wf(s)
    ensures Orderly(DeleteConnections(s, loop))
  {
    hide Sane, Grounded, Sorted, Jobs, Flat, Tasks, DeadElsewhere;
    FreedGrounded(s, loop);
    hide Carried;
    CarriedSplit(s.conns, Victims(s, loop));
    hide Delivered, Stamped;
  }

  lemma StepOrderly(s: State, e: Event)
    requires Inv(s) && Wf(s) && Enabled(s, e)
    ensures Orderly(Step(s, e))
  {
    hide Sane, Orderly, Wf, Aside, Grounded, ConnsLive;
    match e
    case Accepted(c, loop) => AcceptOrderly(s, c, loop);
    case Begun(c) => BeginAside(s, c); AsideOrderly(s, Begin(s, c));
    case Completed(c, r, now, rnd) => TableIsOpen(s, c); CompleteOrderly(s, c, r, now, rnd);
    case Disconnected(c) => DisconnectAside(s, c); AsideOrderly(s, Disconnect(s, c));
    case TimedOut(now) =>
      FlatLive(s.workers, s.conns.Keys) by { assert WorkersLive(s.workers, s.conns.Keys) by { WorkersLiveOf(s); } }
      TimeoutAllAside(s, Flat(s.workers), now);
      AsideOrderly(s, CheckTimeout(s, now));
    case Cleaned(locked) => CleanOrderly(s, 0, locked);
    case Deleted(loop) => FreedOrderly(s, loop);
  }

  lemma WorkersLiveOf(s: State)
    requires Wf(s)
    ensures WorkersLive(s.workers, s.conns.Keys)
  {
  }

  lemma SaneIsWf(s: State)
    requires Sane(s)
    ensures Wf(s)
  {
  }

  /** A run of the broker: each event is enabled where it happens. */
  ghost predicate Run(s: State, events: seq<Event>, t: State)
    decreases |events|
  {
    if events == [] then t == s
    else Wf(s) && Enabled(s, events[0]) && Run(Step(s, events[0]), events[1..], t)
  }

  lemma StartInv(threads: nat)
    requires threads > 0
    ensures Inv(Start(threads))
  {
    StartSane(threads);
    hide Sane;
  }

  /** The invariant holds in every state of every run. */
  lemma {:induction false} RunInv(s: State, events: seq<Event>, t: State)
    requires Inv(s) && Run(s, events, t)
    ensures Inv(t)
    decreases |events|
  {
    hide Sane, Orderly, Step, Enabled, Wf, Grounded, ConnsLive;
    if events != [] {
      StepSane(s, events[0]);
      StepOrderly(s, events[0]);
      RunInv(Step(s, events[0]), events[1..], t);
    }
  }
}
