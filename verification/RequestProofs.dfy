/** A completed request, the periodic work, and birth and death of connections keep the broker sane. */
module RequestProofs {
  import opened Connections
  import opened Deques
  import opened Names
  import opened BrokerState
  import opened Common
  import opened References
  import opened Ledger
  import opened Invariants
  import opened ClientRequests
  import opened WorkerRequests
  import opened CallProofs
  import opened WorkerProofs
  import opened Sessions
  import opened SessionProofs

  lemma SayOk(v: Conn, r: Reply)
    requires ConnOk(v) && !v.closed && !ClosesCall(r)
    ensures ConnOk(Told(v, r))
  {
    hide Closed;
    ClosedAppend(v.out, r);
  }

  lemma SaySane(s: State, c: Connect, r: Reply)
    requires SaneBut(s, c) && ConnOk(s.conns[c]) && !s.conns[c].closed && !ClosesCall(r)
    ensures Sane(Send(s, c, r))
  {
    hide Balanced, ConnOk;
    SayOk(s.conns[c], r);
    TellBalanced(s, c, r, multiset{}, multiset{});
    OneTouched(s, Upd(s, c, Told(s.conns[c], r)), c, Told(s.conns[c], r));
  }

  /** A connection without client that is told something and goes back to rest. */
  lemma RestedOk(v: Conn, r: Reply)
    requires !v.closed && v.client.None? && !v.workerMode && !v.started && (v.noid ==> v.failOnDisconnect) && !v.spoilt
    requires v.status !in {ClientWaitResult, Busy, Migration} && Settled(v) && !ClosesCall(r)
    ensures ConnOk(Served(v, Net, r)) && Quiet(v, Served(v, Net, r))
  {
    hide Closed;
    ClosedAppend(v.out, r);
  }

  lemma RestSane(s: State, c: Connect, r: Reply)
    requires SaneBut(s, c) && !s.conns[c].closed && s.conns[c].client.None? && !s.conns[c].workerMode
    requires !s.conns[c].started && !s.conns[c].spoilt
    requires s.conns[c].noid ==> s.conns[c].failOnDisconnect
    requires s.conns[c].status !in {ClientWaitResult, Busy, Migration} && Settled(s.conns[c]) && !ClosesCall(r)
    ensures Sane(SetStatus(Send(s, c, r), c, Net))
  {
    hide Balanced, ConnOk, Settled, ClosesCall;
    var v := Served(s.conns[c], Net, r);
    RestedOk(s.conns[c], r);
    SendThenStatus(s, c, r, Net);
    hide Quiet;
    BalancedUpd(s, c, v, multiset{}, multiset{}) by { assert v.id == s.conns[c].id; }
    OneTouched(s, Upd(s, c, v), c, v);
  }

  // Registering

  lemma RpcAddSane(s: State, c: Connect, rnd: Entropy)
    requires SaneBut(s, c) && Wf(s)
    requires Idle(s.conns[c].(workerMode := false))
    requires s.conns[c].workerMode && s.conns[c].name == "" ==> s.conns[c].status == Net
    ensures s.conns[c].status == Net || s.conns[c].name != "" ==> Sane(RpcAdd(s, c, rnd))
  {
    hide Balanced, ConnOk, Wf, Settled, Grounded, ConnsLive;
    var v := s.conns[c];
    if v.name == "" && v.status == Net {
      NamelessSane(s, c);
    } else if v.name != "" {
      var u := Engaged(v);
      UpdWf(s, c, u) by { ConnIsLive(s, c); }
      BalancedUpd(s, c, u, multiset{}, multiset{});
      RegisteringIdle(v, u);
      hide Idle;
      AddWorkersSane(Upd(s, c, u), c, SplitNames(v.name, 0, 0), rnd);
    }
  }

  lemma RegisteringIdle(v: Conn, u: Conn)
    requires Idle(v.(workerMode := false)) && v.name != ""
    requires u == Engaged(v)
    ensures Idle(u)
  {
  }

  lemma NamelessSane(s: State, c: Connect)
    requires SaneBut(s, c) && Wf(s) && s.conns[c].status == Net && Idle(s.conns[c].(workerMode := false))
    ensures Sane(Send(Upd(s, c, s.conns[c].(workerMode := false)), c, NoName))
  {
    hide Balanced, Wf, Closed, Grounded, ConnsLive;
    var v := s.conns[c].(workerMode := false);
    assert ConnOk(v);
    hide ConnOk;
    BalancedUpd(s, c, v, multiset{}, multiset{});
    SaySane(Upd(s, c, v), c, NoName);
  }

  // Worker mode

  lemma ReleasedIdle(v: Conn)
    requires Owing(v) && v.workerMode && !v.started && v.name != ""
    ensures Idle(Released(v)) && Idle(Released(v).(workerMode := false)) && Released(v).name == v.name
  {
  }

  lemma AsyncIdle(v: Conn)
    requires ConnOk(v) && !v.closed && v.workerMode && v.status == WorkerModeAsync && !v.started
    ensures Idle(v) && Idle(v.(workerMode := false)) && v.name != ""
  {
  }

  lemma StopSane(a: State, c: Connect)
    requires SaneBut(a, c) && Wf(a) && Idle(a.conns[c])
    ensures Sane(Stop(a, c))
  {
    hide Balanced, ConnOk, Wf, Settled, PopItem, Grounded, ConnsLive;
    ConnIsLive(a, c);
    PopItemSane(a, c);
    PopItemWf(a, c);
    var b := PopItem(a, c);
    var v := b.conns[c].(workerMode := false);
    BalancedUpd(b, c, v, multiset{}, multiset{});
    StopSettled(b.conns[c]);
    RestSane(Upd(b, c, v), c, Ok);
  }

  lemma StopSettled(v: Conn)
    requires Settled(v)
    ensures Settled(v.(workerMode := false))
  {
  }

  lemma NextJobSane(s: State, c: Connect, stop: bool, rnd: Entropy)
    requires SaneBut(s, c) && Wf(s) && ConnOk(s.conns[c]) && !s.conns[c].closed && !s.conns[c].started
    requires s.conns[c].workerMode && s.conns[c].status in {WorkerModeAsync, WorkerWaitResult}
    ensures Sane(NextJob(s, c, stop, rnd))
  {
    var v := s.conns[c];
    WorkerModeNamed(v);
    hide Balanced, ConnOk, Wf, Settled, Grounded, ConnsLive;
    if v.status != WorkerModeAsync {
      OwingIfWaiting(v);
      WorkerResultNoidSane(s, c);
      ReleasedIdle(v);
    } else {
      AsyncIdle(v);
    }
    hide WorkerResultNoid, Released;
    var a := if v.status != WorkerModeAsync then WorkerResultNoid(s, c).s else s;
    if stop {
      StopSane(a, c);
    } else {
      RpcAddSane(a, c, rnd);
    }
  }

  lemma WorkerModeNamed(v: Conn)
    requires ConnOk(v) && !v.closed && v.workerMode && v.status != Net
    ensures v.name != ""
  {
  }

  // A worker without ids

  lemma FinishJobSane(s: State, c: Connect, isResult: bool)
    requires SaneBut(s, c) && Wf(s) && ConnOk(s.conns[c]) && !s.conns[c].closed && !s.conns[c].started
    requires !s.conns[c].workerMode && s.conns[c].noid && s.conns[c].status == WorkerWaitResult
    ensures Sane(FinishJob(s, c, isResult))
  {
    hide Balanced, ConnOk, Wf, Settled, Grounded, ConnsLive, WorkerResultNoid, Send, SetStatus, SameFrame;
    var v := s.conns[c];
    if isResult {
      OwingIfWaiting(v);
      WorkerResultNoidSane(s, c);
      var r := WorkerResultNoid(s, c);
      ReleasedSettled(v);
      RestSane(r.s, c, if r.code == 0 then Ok else if r.code == -2 then ClientGone else WrongId);
    } else {
      SaySane(s, c, ResultExpected);
    }
  }

  lemma ReleasedSettled(v: Conn)
    requires Owing(v)
    ensures Settled(Released(v))
  {
  }

  // A result for a waiting client

  lemma RpcResultSane(s: State, c: Connect)
    requires SaneBut(s, c) && Wf(s) && s.conns[c].status == Net
    requires !s.conns[c].closed && s.conns[c].client.None? && !s.conns[c].workerMode && !s.conns[c].started
    requires (s.conns[c].noid ==> s.conns[c].failOnDisconnect) && Settled(s.conns[c]) && !s.conns[c].spoilt
    ensures Sane(RpcResult(s, c))
  {
    hide Balanced, ConnOk, Wf, Settled, Grounded, ConnsLive, Send, SetStatus, SameFrame;
    var v := s.conns[c];
    var id := if v.id != "" then v.id else v.jsonId;
    if id == "" {
      RestSane(s, c, NoId);
    } else {
      WorkerResultSane(s, id, Some(v.body), c);
      var r := WorkerResult(s, id, Some(v.body));
      hide WorkerResult;
      RestSane(r.s, c, if r.code == 0 then Ok else if r.code == -2 then ClientGone else WrongId);
    }
  }

  // All requests

  lemma FilledOk(v: Conn, r: Request, now: nat)
    requires ConnOk(v) && !v.closed && v.started
    ensures ConnOk(Filled(v, r, now)) && Quiet(v, Filled(v, r, now)) && !Filled(v, r, now).started
    ensures !InCall(v)
    ensures var f := Filled(v, r, now);
      f.noid == v.noid && f.workerMode == v.workerMode && f.status == v.status && !f.closed
      && f.failOnDisconnect == v.failOnDisconnect && f.client == v.client && f.spoilt == v.spoilt
  {
  }

  lemma StartedStatus(v: Conn)
    requires ConnOk(v) && !v.closed && v.started
    ensures v.workerMode ==> v.status in {WorkerModeAsync, WorkerWaitResult}
    ensures !v.workerMode && v.noid ==> v.status == WorkerWaitResult
    ensures !v.workerMode && !v.noid ==> v.status == Net && !v.failOnDisconnect && v.client.None?
    ensures !v.spoilt
  {
  }

  lemma CompleteSane(s: State, c: Connect, r: Request, now: nat, rnd: Entropy)
    requires Sane(s) && Wf(s) && c in s.conns && !s.conns[c].closed && s.conns[c].started
    ensures Sane(Complete(s, c, r, now, rnd))
  {
    hide Balanced, ConnOk, Wf, Closed, Filled, Quiet, Grounded, ConnsLive;
    var v := s.conns[c];
    var f := Filled(v, r, now);
    FilledOk(v, r, now);
    StartedStatus(v);
    FilledLive(s, c, r, now);
    UpdWf(s, c, f);
    NotWaiting(s, c);
    BalancedUpd(s, c, f, multiset{}, multiset{});
    var a := Upd(s, c, f);
    if r.kind == Echo {
      SaySane(a, c, Ok);
    } else if f.workerMode {
      NextJobSane(a, c, r.stop, rnd);
    } else if f.noid {
      FinishJobSane(a, c, r.kind == Result);
    } else {
      OrdinarySettled(f);
      MarkedWf(a, c, r);
      OrdinarySane(a, c, r, rnd);
    }
  }

  lemma FilledLive(s: State, c: Connect, r: Request, now: nat)
    requires Wf(s) && c in s.conns
    ensures ConnLive(Filled(s.conns[c], r, now), s.conns.Keys, |s.lists|, s.threads)
  {
    ConnIsLive(s, c);
  }

  lemma MarkedWf(a: State, c: Connect, r: Request)
    requires Wf(a) && c in a.conns
    ensures Wf(Upd(a, c, Marked(a.conns[c], r)))
  {
    hide Wf, Grounded, ConnsLive;
    ConnIsLive(a, c);
    UpdWf(a, c, Marked(a.conns[c], r));
  }

  lemma OrdinarySettled(v: Conn)
    requires ConnOk(v) && !v.closed
    ensures Settled(v)
  {
  }

  lemma MarkedQuiet(f: Conn, r: Request)
    ensures var m := Marked(f, r);
      && Quiet(f, m) && m.id == f.id && m.out == f.out && m.nloop == f.nloop && m.connectionId == f.connectionId
      && m.status == f.status && m.closed == f.closed && m.started == f.started && m.client == f.client
      && m.calls == f.calls
      && (r.kind !in {Add, AddWorkerMode} ==> m == f.(noResponse := r.kind == AsyncCall && !r.broken))
  {
  }

  lemma MarkedIdle(f: Conn, r: Request)
    requires !f.closed && !f.started && f.status == Net && !f.noid && !f.workerMode && !f.failOnDisconnect
    requires f.client.None?
    requires Settled(f) && r.kind in {Add, AddWorkerMode} && !r.broken && !f.spoilt
    ensures Idle(Marked(f, r).(workerMode := false)) && !Ready(Marked(f, r))
  {
  }

  lemma OrdinarySane(a: State, c: Connect, r: Request, rnd: Entropy)
    requires SaneBut(a, c) && Wf(a) && r.kind != Echo
    requires var f := a.conns[c];
      && !f.closed && !f.started && f.status == Net && !f.noid && !f.workerMode && !f.failOnDisconnect && f.client.None?
      && Settled(f) && !f.spoilt
    requires Wf(Upd(a, c, Marked(a.conns[c], r)))
    ensures Sane(Perform(Upd(a, c, Marked(a.conns[c], r)), c, r, rnd))
  {
    hide Balanced, ConnOk, Wf, Closed, Grounded, ConnsLive;
    var f := a.conns[c];
    var m := Marked(f, r);
    BalancedUpd(a, c, m, multiset{}, multiset{});
    var b := Upd(a, c, m);
    if BreaksOff(m, r) {
      BrokenOff(f, r);
      SaySane(b, c, InvalidData);
    } else {
      HandledSane(b, c, r, rnd);
    }
  }

  /** A body that cannot be scanned leaves the connection at rest, but for worker mode. */
  lemma BrokenOff(f: Conn, r: Request)
    requires !f.closed && !f.started && f.status == Net && !f.noid && !f.workerMode && !f.failOnDisconnect
    requires f.client.None? && Settled(f) && !f.spoilt && r.broken
    ensures ConnOk(Marked(f, r)) && !Ready(Marked(f, r))
  {
    hide Closed;
  }

  lemma HandledSane(b: State, c: Connect, r: Request, rnd: Entropy)
    requires SaneBut(b, c) && Wf(b) && r.kind != Echo
    requires var f := b.conns[c];
      && !f.closed && !f.started && f.status == Net && !f.spoilt && f.client.None? && Settled(f)
      && (f.noid ==> f.failOnDisconnect)
      && (r.kind !in {Add, AddWorkerMode} ==> !f.noid && !f.workerMode && !f.failOnDisconnect)
    ensures Sane(Handled(b, c, r, rnd))
  {
    hide Balanced, ConnOk, Wf, Closed, Grounded, ConnsLive;
    match r.kind
    case Call => ClientRequestSane(b, c, r.name, rnd);
    case AsyncCall => ClientRequestSane(b, c, r.name, rnd);
    case Add => RpcAddSane(b, c, rnd);
    case AddWorkerMode => RpcAddSane(b, c, rnd);
    case Result => RpcResultSane(b, c);
  }

  // Periodic work

  lemma TimedOutOk(v: Conn, now: nat)
    requires ConnOk(v) && Ready(v)
    ensures var u := v.(status := StatusAfterAsync(v), pingTimeout := now + v.ping);
      ConnOk(u) && Quiet(v, u) && !v.closed
  {
  }

  lemma TimeoutOneSane(s: State, w: Connect, now: nat)
    requires Sane(s) && Wf(s) && w in s.conns
    ensures Sane(TimeoutOne(s, w, now))
  {
    hide Balanced, ConnOk, Wf, Grounded, ConnsLive, Sane, SaneBut, Quiet, Ready;
    var v := s.conns[w];
    if v.ping > 0 && v.pingTimeout <= now && Ready(v) {
      SaneOn(s, w);
      TimedOutOk(v, now);
      var u := v.(status := StatusAfterAsync(v), pingTimeout := now + v.ping);
      BalancedUpd(s, w, u, multiset{}, multiset{}) by { assert u.id == v.id; }
      OneTouched(s, Upd(s, w, u), w, u);
      SaneOn(Upd(s, w, u), w);
      SaySane(Upd(s, w, u), w, Timeout);
    }
  }

  lemma {:induction false} TimeoutAllSane(s: State, ws: seq<Connect>, now: nat)
    requires Sane(s) && Wf(s) && forall i :: 0 <= i < |ws| ==> ws[i] in s.conns
    ensures Sane(TimeoutAll(s, ws, now))
    decreases |ws|
  {
    hide Sane, Wf, TimeoutOne, Grounded, ConnsLive;
    if ws != [] {
      TimeoutOneSane(s, ws[0], now);
      TimeoutAllSane(TimeoutOne(s, ws[0], now), ws[1..], now);
    }
  }

  lemma CheckTimeoutSane(s: State, now: nat)
    requires Sane(s) && Wf(s)
    ensures Sane(CheckTimeout(s, now))
  {
    hide Sane;
    FlatLive(s.workers, s.conns.Keys);
    TimeoutAllSane(s, Flat(s.workers), now);
  }

  lemma EraseWorkerAll(s: State, q: nat, l: nat, i: nat)
    requires Sane(s) && Wf(s) && q < |s.workers| && l < |s.workers[q]| && i < |s.workers[q][l]|
    ensures s.workers[q][l][i] in s.conns
    ensures Sane(EraseWorker(s, q, l, i))
  {
    hide Balanced, ConnOk, Wf, EraseWorker, Grounded, ConnsLive;
    EntryLive(s, q, l, i);
    var w := s.workers[q][l][i];
    EraseWorkerSane(s, q, l, i, w);
    AllLinked(s, EraseWorker(s, q, l, i));
  }

  lemma AllLinked(s: State, t: State)
    requires OnlyLinks(s, t) && forall x :: x in s.conns ==> ConnOk(s.conns[x])
    ensures forall x :: x in t.conns ==> ConnOk(t.conns[x])
  {
  }

  lemma EraseStaleAll(s: State, q: nat, l: nat, i: nat)
    requires Sane(s) && Wf(s) && q < |s.clients| && l < |s.clients[q]| && i < |s.clients[q][l]|
    requires MsgLive(s.clients[q][l][i], s.conns.Keys) && Stale(s, s.clients[q][l][i])
    ensures Sane(EraseMessage(s, q, l, i))
  {
    hide Balanced, ConnOk, Wf, EraseMessage, Grounded, ConnsLive;
    var c := s.clients[q][l][i].conn.value;
    if !s.conns[c].closed {
      CallerWaits(s, q, l, i);
    }
    EraseStaleSane(s, q, l, i, c);
    AllLinked(s, EraseMessage(s, q, l, i));
  }

  lemma {:induction false} CleanWorkersSane(s: State, q: nat, l: nat, i: nat)
    requires Sane(s) && Wf(s) && q < |s.workers| && l < s.threads && i <= |s.workers[q][l]|
    ensures Sane(CleanWorkers(s, q, l, i))
    decreases |s.workers[q][l]| - i
  {
    hide Sane, Grounded;
    if i < |s.workers[q][l]| {
      EraseWorkerWf(s, q, l, i);
      EraseWorkerAll(s, q, l, i);
      if !Ready(s.conns[s.workers[q][l][i]]) {
        CleanWorkersSane(EraseWorker(s, q, l, i), q, l, i);
      } else {
        CleanWorkersSane(s, q, l, i + 1);
      }
    }
  }

  lemma {:induction false} CleanClientsSane(s: State, q: nat, l: nat, i: nat)
    requires Sane(s) && Wf(s) && q < |s.clients| && l < s.threads && i <= |s.clients[q][l]|
    ensures Sane(CleanClients(s, q, l, i))
    decreases |s.clients[q][l]| - i
  {
    hide Sane, Grounded;
    if i < |s.clients[q][l]| {
      MessageOfWf(s, q, l, i);
      if Stale(s, s.clients[q][l][i]) {
        EraseMessageWf(s, q, l, i);
        ErasedClients(s, q, l, i);
        EraseStaleAll(s, q, l, i);
        CleanClientsSane(EraseMessage(s, q, l, i), q, l, i);
      } else {
        CleanClientsSane(s, q, l, i + 1);
      }
    }
  }

  lemma {:induction false} CleanLineSane(s: State, q: nat, l: nat)
    requires Sane(s) && Wf(s) && q < |s.lists|
    ensures Sane(CleanLine(s, q, l))
    decreases s.threads - l
  {
    hide Sane, Grounded, CleanWorkers, CleanClients;
    if l < s.threads {
      CleanWorkersSane(s, q, l, 0);
      var t := CleanWorkers(s, q, l, 0);
      CleanClientsSane(t, q, l, 0);
      CleanLineSane(CleanClients(t, q, l, 0), q, l + 1);
    }
  }

  lemma {:induction false} CleanSane(s: State, q: nat, locked: set<nat>)
    requires Sane(s) && Wf(s)
    ensures Sane(Clean(s, q, locked))
    decreases |s.lists| - q
  {
    hide Sane, Wf, CleanLine, Grounded, ConnsLive;
    if q < |s.lists| {
      if q in locked {
        CleanSane(s, q + 1, locked);
      } else {
        CleanLineSane(s, q, 0);
        CleanSane(CleanLine(s, q, 0), q + 1, locked);
      }
    }
  }
}
