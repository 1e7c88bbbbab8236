/** add_worker keeps the broker sane. */
module WorkerProofs {
  import opened Connections
  import opened Deques
  import opened Names
  import opened BrokerState
  import opened Common
  import opened References
  import opened Ledger
  import opened Invariants
  import opened WorkerRequests

  lemma MessageLive(s: State, q: nat, l: nat, i: nat)
    requires Balanced(s, multiset{}, multiset{})
    requires q < |s.clients| && l < |s.clients[q]| && i < |s.clients[q][l]|
    ensures MsgLive(s.clients[q][l][i], s.conns.Keys)
  {
  }

  lemma RejectedOk(v: Conn)
    requires ConnOk(v) && v.status == ClientWaitResult && !v.closed
    ensures ConnOk(Served(v, Net, CollisionId)) && v.client.None?
  {
    hide Closed;
    ClosedAppend(v.out, CollisionId);
  }

  /** A waiting client that is turned away is in no place any more and has its reply. */
  lemma RejectQueuedSane(s: State, q: nat, l: nat, i: nat, c: Connect, w: Connect)
    requires SaneBut(s, w) && Wf(s) && q < |s.clients| && l < |s.clients[q]| && i < |s.clients[q][l]|
    requires s.clients[q][l][i].conn == Some(c) && c in s.conns && c != w
    requires !s.conns[c].closed && s.conns[c].status == ClientWaitResult
    ensures SaneBut(RejectQueued(s, q, l, i, c), w)
    ensures RejectQueued(s, q, l, i, c).conns[w] == s.conns[w]
  {
    hide Balanced, ConnOk, Wf, Closed, Grounded, ConnsLive;
    MessageFreed(s, q, l, i);
    var t := EraseMessage(s, q, l, i);
    ErasedConns(s, q, l, i, c);
    hide EraseMessage;
    RelinkedOk(s.conns[c], s.conns[c].link - 1);
    RejectedOk(t.conns[c]);
    hide Served;
    ReleaseHere(t, c, Served(t.conns[c], Net, CollisionId));
    assert RejectQueued(s, q, l, i, c).conns == s.conns[c := Served(t.conns[c], Net, CollisionId)];
  }

  lemma ErasedConns(s: State, q: nat, l: nat, i: nat, c: Connect)
    requires q < |s.clients| && l < |s.clients[q]| && i < |s.clients[q][l]|
    requires s.clients[q][l][i].conn == Some(c) && c in s.conns
    ensures EraseMessage(s, q, l, i).conns == s.conns[c := s.conns[c].(link := s.conns[c].link - 1)]
  {
  }

  lemma ReleaseHere(s: State, c: Connect, v: Conn)
    requires Balanced(s, multiset{}, multiset{c}) && c in s.conns && !s.conns[c].closed
    requires s.conns[c].status == ClientWaitResult && s.conns[c].client.None?
    requires v == Served(s.conns[c], Net, CollisionId)
    ensures Balanced(Upd(s, c, v), multiset{}, multiset{})
  {
    hide Balanced;
    BalancedRelease(s, c, v, multiset{}, multiset{c});
    assert multiset{c} - multiset{c} == multiset{};
  }

  lemma DropMessageSane(s: State, q: nat, l: nat, i: nat, w: Connect, rnd: Entropy)
    requires SaneBut(s, w) && Wf(s) && Idle(s.conns[w])
    requires q < |s.clients| && l < s.threads && l < |s.clients[q]| && i < |s.clients[q][l]|
    requires s.clients[q][l][i].conn.Some?
    requires MsgLive(s.clients[q][l][i], s.conns.Keys)
    ensures SaneBut(DropMessage(s, q, l, i, rnd), w)
    ensures DropMessage(s, q, l, i, rnd).conns[w] == s.conns[w]
  {
    hide Balanced, ConnOk, Wf, Grounded, ConnsLive, Idle, SameFrame, EraseMessage, RejectQueued, ResolveId, ResolvedId;
    var c := s.clients[q][l][i].conn.value;
    IdleDoesNotWait(s.conns[w]);
    if s.conns[c].closed {
      EraseStaleSane(s, q, l, i, w);
      KeptByLinks(s, EraseMessage(s, q, l, i), q, l, i, w);
    } else {
      CallerWaits(s, q, l, i);
      ResolvedElsewhere(s, c, rnd, w);
      ResolveIdSane(s, c, rnd, w);
      ResolveIdWf(s, c, rnd);
      RejectQueuedSane(ResolveId(s, c, rnd), q, l, i, c, w);
    }
  }

  lemma IdleDoesNotWait(v: Conn)
    requires Idle(v)
    ensures !InCall(v) && !v.closed
  {
  }

  lemma ResolvedElsewhere(s: State, c: Connect, rnd: Entropy, w: Connect)
    requires c in s.conns && w in s.conns && c != w
    ensures var t := ResolveId(s, c, rnd);
      t.clients == s.clients && t.conns[w] == s.conns[w] && c in t.conns
      && t.conns[c].closed == s.conns[c].closed && t.conns[c].status == s.conns[c].status
  {
  }

  lemma KeptByLinks(s: State, t: State, q: nat, l: nat, i: nat, w: Connect)
    requires w in s.conns && q < |s.clients| && l < |s.clients[q]| && i < |s.clients[q][l]|
    requires MsgLive(s.clients[q][l][i], s.conns.Keys) && t == EraseMessage(s, q, l, i)
    requires s.clients[q][l][i].conn != Some(w)
    ensures t.conns[w] == s.conns[w]
  {
  }

  /** What a found message guarantees. */
  predicate Takes(s: State, m: Msg, w: Connect)
    requires w in s.conns && MsgLive(m, s.conns.Keys)
  {
    m.conn.Some? ==>
      var c := m.conn.value;
      && !s.conns[c].closed && s.conns[c].status == ClientWaitResult
      && (!s.conns[w].noid ==> s.conns[c].id != "" && s.conns[c].id !in s.wait)
  }

  ghost predicate ScannedOk(s: State, q: nat, w: Connect, r: MessageScan) {
    && SaneBut(r.s, w) && w in s.conns && r.s.conns[w] == s.conns[w]
    && (r.FoundMessage? ==>
          && q < |r.s.clients| && r.l < |r.s.clients[q]| && r.i < |r.s.clients[q][r.l]|
          && MsgLive(r.s.clients[q][r.l][r.i], r.s.conns.Keys)
          && Takes(r.s, r.s.clients[q][r.l][r.i], w))
  }

  lemma {:induction false} ScanMessagesSane(s: State, q: nat, l: nat, w: Connect, i: nat, rnd: Entropy)
    requires SaneBut(s, w) && Wf(s) && Idle(s.conns[w]) && q < |s.clients| && l < s.threads && i <= |s.clients[q][l]|
    ensures ScannedOk(s, q, w, ScanMessages(s, q, l, w, i, rnd))
    decreases |s.clients[q][l]| - i
  {
    hide ConnOk, Balanced, Grounded, DropMessage;
    var d := s.clients[q][l];
    if i < |d| {
      MessageLive(s, q, l, i);
      if !Suits(d[i].required, s.conns[w].connectionId) {
        ScanMessagesSane(s, q, l, w, i + 1, rnd);
      } else if !Takeable(s, d[i], w, rnd) {
        DropMessageSane(s, q, l, i, w, rnd);
        ScanMessagesSane(DropMessage(s, q, l, i, rnd), q, l, w, i, rnd);
      } else if d[i].conn.Some? && !s.conns[w].noid {
        FoundSane(s, q, l, w, i, rnd);
      }
    }
  }

  lemma FoundSane(s: State, q: nat, l: nat, w: Connect, i: nat, rnd: Entropy)
    requires SaneBut(s, w) && Wf(s) && Idle(s.conns[w]) && q < |s.clients| && l < s.threads && i < |s.clients[q][l]|
    requires MsgLive(s.clients[q][l][i], s.conns.Keys) && Takeable(s, s.clients[q][l][i], w, rnd)
    requires s.clients[q][l][i].conn.Some? && !s.conns[w].noid
    ensures ScannedOk(s, q, w, FoundMessage(ResolveId(s, s.clients[q][l][i].conn.value, rnd), l, i))
  {
    hide ConnOk, Balanced, Grounded;
    var c := s.clients[q][l][i].conn.value;
    CallerWaits(s, q, l, i);
    ResolveIdSane(s, c, rnd, w);
  }

  lemma {:induction false} FindMessageSane(s: State, q: nat, local: nat, w: Connect, index: int, rnd: Entropy)
    requires SaneBut(s, w) && Wf(s) && Idle(s.conns[w]) && q < |s.clients| && local < s.threads && -1 <= index
    ensures ScannedOk(s, q, w, FindMessage(s, q, local, w, index, rnd))
    decreases s.threads - index
  {
    hide ConnOk, Balanced, Grounded, ScanMessages;
    if index < s.threads {
      if index == local {
        FindMessageSane(s, q, local, w, index + 1, rnd);
      } else {
        var l := LoopAt(index, local);
        assert l < |s.clients[q]|;
        ScanMessagesSane(s, q, l, w, 0, rnd);
        match ScanMessages(s, q, l, w, 0, rnd)
        case FoundMessage(t, l, i) =>
        case NoMessage(t) =>
          FindMessageSane(t, q, local, w, index + 1, rnd);
      }
    }
  }

  // Taking a job

  lemma IdleServedAsync(v: Conn, r: Reply)
    requires Idle(v) && r.AsyncTask?
    ensures ConnOk(Served(v, StatusAfterAsync(v), r)) && Quiet(v, Served(v, StatusAfterAsync(v), r))
  {
    hide Closed;
    ClosedAppend(v.out, r);
  }

  lemma TakeAsyncSane(s: State, q: nat, l: nat, i: nat, w: Connect)
    requires SaneBut(s, w) && Wf(s) && Idle(s.conns[w])
    requires q < |s.clients| && l < |s.clients[q]| && i < |s.clients[q][l]| && s.clients[q][l][i].conn.None?
    ensures Sane(TakeAsync(EraseMessage(s, q, l, i), w, s.clients[q][l][i]))
    ensures TakeAsync(EraseMessage(s, q, l, i), w, s.clients[q][l][i]).conns[w].client.None?
  {
    hide Balanced, ConnOk, Wf, Closed, Grounded, ConnsLive;
    var m := s.clients[q][l][i];
    OneCaller(m);
    var none: multiset<Connect> := multiset{};
    assert none + multiset(Callers([m])) == none;
    BalancedMessageOut(s, q, l, i, none, none);
    var t := EraseMessage(s, q, l, i);
    var r := AsyncTask(JobOf(m));
    IdleServedAsync(s.conns[w], r);
    hide Quiet, Served, StatusAfterAsync;
    var v := Served(t.conns[w], StatusAfterAsync(t.conns[w]), r);
    ServedId(t.conns[w], StatusAfterAsync(t.conns[w]), r);
    BalancedUpd(t, w, v, none, none);
    BalancedHistory(Upd(t, w, v), t.stamp, t.accepted, t.handed + multiset{JobOf(m)});
    OneTouched(s, TakeAsync(t, w, m), w, v);
    ServedId(t.conns[w], StatusAfterAsync(t.conns[w]), r);
  }

  lemma ServedId(v: Conn, status: Status, r: Reply)
    ensures Served(v, status, r).id == v.id && Served(v, status, r).client == v.client
  {
  }

  lemma IdleServedLinked(v: Conn, c: Connect, r: Reply)
    requires Idle(v) && v.noid && r.Task?
    ensures ConnOk(ServedNoid(v, c, r)) && ServedNoid(v, c, r) == ServedLinked(v, c, r)
    ensures SameWaiting(v, ServedNoid(v, c, r))
  {
    hide Closed;
    ClosedAppend(v.out, r);
  }

  /** The call of c is in the hands of the handler that serves w; everyone else is in order. */
  ghost predicate InHand(t: State, w: Connect, c: Connect) {
    && Balanced(t, multiset{}, multiset{c})
    && w in t.conns && c in t.conns && w != c && !t.conns[c].closed
    && (forall x :: x in t.conns && x != w ==> ConnOk(t.conns[x]))
  }

  lemma TakenTwo(t: State, u: State, w: Connect, vw: Conn, c: Connect, vc: Conn)
    requires InHand(t, w, c) && Balanced(u, multiset{}, multiset{})
    requires u.conns == t.conns[w := vw][c := vc]
    requires ConnOk(vw) && ConnOk(vc)
    ensures Sane(u)
  {
    hide Balanced, ConnOk;
  }

  lemma TakeLinkedSane(t: State, w: Connect, c: Connect)
    requires InHand(t, w, c) && Idle(t.conns[w]) && t.conns[w].noid && t.conns[c].status == ClientWaitResult
    ensures Sane(TakeSync(t, w, c))
  {
    hide Balanced, ConnOk, Closed;
    var v, u := t.conns[w], t.conns[c];
    var r := Task(u.name, u.body);
    IdleServedLinked(v, c, r);
    var vw, vc := ServedNoid(v, c, r), Picked(u, 1);
    LinkedUp(t, c);
    var none: multiset<Connect> := multiset{};
    assert none + multiset{c} == multiset{c};
    BalancedServe(Upd(t, c, vc), w, c, vw, none, none);
    Upd2Swap(t, c, vc, w, vw);
    PickedOk(u, 1);
    hide ServedNoid, ServedLinked, Picked;
    TakenTwo(t, TakeSync(t, w, c), w, vw, c, vc);
  }

  lemma IdleServedWithId(v: Conn, c: Connect, r: Reply)
    requires Idle(v) && !v.noid && r.TaskWithId?
    ensures ConnOk(ServedWithId(v, c, r))
    ensures Quiet(v.(client := if v.failOnDisconnect then Some(c) else v.client), ServedWithId(v, c, r))
  {
    hide Closed;
    ClosedAppend(v.out, r);
  }

  /** The pointers that the worker's job gives to c are made one by one. */
  lemma LinkedUp(t: State, c: Connect)
    requires Balanced(t, multiset{}, multiset{c}) && c in t.conns && !t.conns[c].closed
    requires t.conns[c].status == ClientWaitResult
    ensures Balanced(Upd(t, c, Picked(t.conns[c], 1)), multiset{c}, multiset{c})
    ensures Balanced(Upd(t, c, Picked(t.conns[c], 2)), multiset{c, c}, multiset{c})
  {
    hide Balanced;
    var u := t.conns[c];
    BalancedBusy(t, c, multiset{}, multiset{c});
    var b := SetStatus(t, c, Busy);
    OpenHasLink(b, c, multiset{}, multiset{c});
    BalancedLink(b, c, multiset{}, multiset{c});
    assert multiset{} + multiset{c} == multiset{c} && multiset{c} + multiset{c} == multiset{c, c};
    BalancedLink(Link(b, c), c, multiset{c}, multiset{c});
    UpdTwice(t, c, u.(status := Busy), Picked(u, 1));
    UpdTwice(t, c, Picked(u, 1), Picked(u, 2));
  }

  lemma PickedOk(v: Conn, links: nat)
    requires ConnOk(v) && v.status == ClientWaitResult
    ensures ConnOk(Picked(v, links))
  {
  }

  lemma PointedIdle(s: State, w: Connect, c: Connect, r: Reply)
    requires w in s.conns && c in s.conns && w != c && Idle(s.conns[w]) && !s.conns[w].noid && r.TaskWithId?
    requires Balanced(s, if s.conns[w].failOnDisconnect then multiset{c, c} else multiset{c}, multiset{c})
    ensures Balanced(Upd(s, w, ServedWithId(s.conns[w], c, r)), multiset{c}, multiset{c})
  {
    hide Balanced, ConnOk;
    var v := s.conns[w];
    IdleServedWithId(v, c, r);
    if v.failOnDisconnect {
      assert multiset{c} + multiset{c} == multiset{c, c};
      BalancedPoint(s, w, c, multiset{c}, multiset{c});
      var a := SetClient(s, w, Some(c));
      BalancedUpd(a, w, ServedWithId(v, c, r), multiset{c}, multiset{c});
      UpdTwice(s, w, v.(client := Some(c)), ServedWithId(v, c, r));
    } else {
      BalancedUpd(s, w, ServedWithId(v, c, r), multiset{c}, multiset{c});
    }
  }

  lemma TakeWithIdSane(t: State, w: Connect, c: Connect)
    requires InHand(t, w, c) && Idle(t.conns[w]) && !t.conns[w].noid
    requires t.conns[c].id != "" && t.conns[c].id !in t.wait && t.conns[c].status == ClientWaitResult
    ensures Sane(TakeSync(t, w, c))
  {
    hide Balanced, ConnOk, Closed;
    var v, u := t.conns[w], t.conns[c];
    var r := TaskWithId(u.id, u.name, u.body);
    IdleServedWithId(v, c, r);
    var vw, vc := ServedWithId(v, c, r), Picked(u, LinksGiven(v));
    LinkedUp(t, c);
    PointedIdle(Upd(t, c, vc), w, c, r);
    Upd2Swap(t, c, vc, w, vw);
    var none: multiset<Connect> := multiset{};
    assert none + multiset{c} == multiset{c};
    BalancedWaitIn(Upd2(t, w, vw, c, vc), u.id, c, none, none);
    PickedOk(u, LinksGiven(v));
    hide ServedWithId, Idle, Picked;
    TakenTwo(t, TakeSync(t, w, c), w, vw, c, vc);
  }

  lemma ErasedInHand(s: State, q: nat, l: nat, i: nat, w: Connect)
    requires SaneBut(s, w) && Wf(s) && Idle(s.conns[w])
    requires q < |s.clients| && l < |s.clients[q]| && i < |s.clients[q][l]|
    requires s.clients[q][l][i].conn.Some? && s.clients[q][l][i].conn.value in s.conns
    requires !s.conns[s.clients[q][l][i].conn.value].closed
    requires s.conns[s.clients[q][l][i].conn.value].status == ClientWaitResult
    ensures InHand(EraseMessage(s, q, l, i), w, s.clients[q][l][i].conn.value)
    ensures EraseMessage(s, q, l, i).conns[w] == s.conns[w]
    ensures var c := s.clients[q][l][i].conn.value;
      && EraseMessage(s, q, l, i).conns[c].id == s.conns[c].id
      && EraseMessage(s, q, l, i).conns[c].status == ClientWaitResult
      && EraseMessage(s, q, l, i).wait == s.wait
  {
    hide Balanced, ConnOk, Wf, Grounded, ConnsLive;
    var c := s.clients[q][l][i].conn.value;
    MessageFreed(s, q, l, i);
    ErasedConns(s, q, l, i, c);
    RelinkedOk(s.conns[c], s.conns[c].link - 1);
  }

  lemma TakeSane(s: State, q: nat, l: nat, i: nat, w: Connect)
    requires SaneBut(s, w) && Wf(s) && Idle(s.conns[w])
    requires q < |s.clients| && l < |s.clients[q]| && i < |s.clients[q][l]|
    requires MsgLive(s.clients[q][l][i], s.conns.Keys) && Takes(s, s.clients[q][l][i], w)
    ensures Sane(Take(s, q, l, i, w))
  {
    hide Balanced, ConnOk, Wf, EraseMessage, Grounded, ConnsLive;
    var m := s.clients[q][l][i];
    if m.conn.None? {
      TakeAsyncSane(s, q, l, i, w);
    } else {
      ErasedInHand(s, q, l, i, w);
      if s.conns[w].noid {
        TakeLinkedSane(EraseMessage(s, q, l, i), w, m.conn.value);
      } else {
        TakeWithIdSane(EraseMessage(s, q, l, i), w, m.conn.value);
      }
    }
  }

  // Waiting for a job

  lemma {:induction false} SweepSane(s: State, q: nat, l: nat, w: Connect, i: nat)
    requires SaneBut(s, w) && Wf(s) && q < |s.workers| && l < s.threads && i <= |s.workers[q][l]|
    ensures SaneBut(Sweep(s, q, l, w, i), w) && OnlyLinks(s, Sweep(s, q, l, w, i))
    decreases |s.workers[q][l]| - i
  {
    hide ConnOk, Core, Balanced, Grounded;
    var d := s.workers[q][l];
    if i < |d| {
      EntryLive(s, q, l, i);
      if s.conns[d[i]].closed || d[i] == w {
        EraseWorkerWf(s, q, l, i);
        EraseWorkerSane(s, q, l, i, w);
        SweepSane(EraseWorker(s, q, l, i), q, l, w, i);
      } else {
        SweepSane(s, q, l, w, i + 1);
      }
    }
  }

  function Parked(v: Conn): Conn {
    v.(link := v.link + 1, status := WorkerWaitJob)
  }

  lemma ParkedOk(v: Conn)
    requires Idle(v)
    ensures ConnOk(Parked(v)) && Idle(Parked(v))
    ensures Quiet(v.(link := v.link + 1), Parked(v))
  {
  }

  lemma SweptLines(s: State, t: State, q: nat)
    requires Wf(s) && SameFrame(s, t) && q < |s.workers|
    ensures q < |t.workers| && |t.workers[q]| == s.threads
  {
    hide Grounded;
  }

  lemma SweptIdle(s: State, t: State, w: Connect)
    requires OnlyLinks(s, t) && w in s.conns && Idle(s.conns[w])
    ensures Idle(t.conns[w]) && t.conns[w].nloop == s.conns[w].nloop
  {
    assert Core(t.conns[w]) == Core(s.conns[w]);
  }

  lemma ParkSane(s: State, q: nat, w: Connect)
    requires SaneBut(s, w) && Wf(s) && q < |s.workers| && Idle(s.conns[w])
    ensures Sane(Park(s, q, w)) && Idle(Park(s, q, w).conns[w])
  {
    hide Balanced, ConnOk, Sweep, Wf, Grounded, ConnsLive, Idle, Core, SetStatus, Link, SetWorkers, InsertAt;
    ConnIsLive(s, w);
    var l := s.conns[w].nloop;
    SweepSane(s, q, l, w, 0);
    var t := Sweep(s, q, l, w, 0);
    SweptIdle(s, t, w);
    SweptLines(s, t, q);
    ParkSwept(t, q, l, w);
  }

  lemma ParkSwept(t: State, q: nat, l: nat, w: Connect)
    requires SaneBut(t, w) && q < |t.workers| && l < |t.workers[q]| && Idle(t.conns[w])
    ensures var d := t.workers[q][l];
      var u := SetStatus(Link(SetWorkers(t, q, l, InsertAt(d, |d|, w)), w), w, WorkerWaitJob);
      Sane(u) && Idle(u.conns[w])
  {
    hide Balanced, ConnOk;
    var d := t.workers[q][l];
    var v := t.conns[w];
    ParkedOk(v);
    OpenHasLink(t, w, multiset{}, multiset{});
    var none: multiset<Connect> := multiset{};
    BalancedLink(t, w, none, none);
    var a := Link(t, w);
    BalancedWorkerIn(a, q, l, |d|, w, none, none);
    var b := SetWorkers(a, q, l, InsertAt(d, |d|, w));
    hide Idle, Quiet;
    BalancedUpd(b, w, Parked(v), none, none);
    UpdTwice(SetWorkers(t, q, l, InsertAt(d, |d|, w)), w, v.(link := v.link + 1), Parked(v));
    OneTouched(t, Upd(b, w, Parked(v)), w, Parked(v));
  }

  // Worker lists

  lemma PushItemBalanced(s: State, c: Connect, q: nat)
    requires Balanced(s, multiset{}, multiset{}) && c in s.conns && !s.conns[c].closed && s.conns[c].item.None?
    requires q < |s.lists|
    ensures Balanced(PushItem(s, c, q), multiset{}, multiset{})
  {
    hide Balanced;
    var none: multiset<Connect> := multiset{};
    OpenHasLink(s, c, none, none);
    BalancedLink(s, c, none, none);
    assert none + multiset{c} == multiset{c};
    BalancedItemIn(Link(s, c), c, q);
  }

  lemma PopItemBalanced(s: State, c: Connect)
    requires Balanced(s, multiset{}, multiset{}) && c in s.conns
    requires s.conns[c].item.Some? ==> s.conns[c].item.value < |s.lists|
    ensures Balanced(PopItem(s, c), multiset{}, multiset{})
  {
    hide Balanced;
    if s.conns[c].item.Some? {
      var q := s.conns[c].item.value;
      BalancedItemOut(s, c);
      var a := Upd(s, c, s.conns[c].(item := None)).(lists := s.lists[q := Without(s.lists[q], c)]);
      BalancedUnlink(a, c, multiset{c}, multiset{});
      assert multiset{c} - multiset{c} == multiset{};
    }
  }

  lemma ListedOk(v: Conn, item: Option<nat>, link: int, subName: string)
    requires ConnOk(v) && !v.closed
    ensures ConnOk(v.(item := item, link := link, subName := subName))
  {
  }

  function Listed(v: Conn, q: nat): Conn {
    v.(item := Some(q), link := v.link + 1)
  }

  lemma EnlistSane(s: State, q: nat, w: Connect, name: string)
    requires Sane(s) && w in s.conns && !s.conns[w].closed && q < |s.lists|
    ensures Sane(Enlist(s, q, w, name))
    ensures Idle(s.conns[w]) ==> Idle(Enlist(s, q, w, name).conns[w])
  {
    hide Sane, Idle, PushItem;
    var v := s.conns[w];
    if v.item.None? {
      ListedSane(s, q, w);
      var t := if v.workerMode || v.noid || v.status == WorkerWaitJob then PushItem(s, w, q) else s;
      SubNamedSane(t, w, name);
    }
  }

  lemma ListedSane(s: State, q: nat, w: Connect)
    requires Sane(s) && w in s.conns && !s.conns[w].closed && q < |s.lists| && s.conns[w].item.None?
    ensures var t := PushItem(s, w, q);
      && Sane(t) && w in t.conns && !t.conns[w].closed && (Idle(s.conns[w]) ==> Idle(t.conns[w]))
      && t.conns[w].workerMode == s.conns[w].workerMode && t.conns[w].noid == s.conns[w].noid
  {
    hide Balanced, ConnOk, Settled, Sane, SaneBut;
    var v := s.conns[w];
    SaneOn(s, w);
    ListedOk(v, Some(q), v.link + 1, v.subName);
    PushItemBalanced(s, w, q);
    PushedConns(s, w, q);
    hide PushItem;
    OneTouched(s, PushItem(s, w, q), w, Listed(v, q));
  }

  lemma SubNamedSane(t: State, w: Connect, name: string)
    requires Sane(t) && w in t.conns && !t.conns[w].closed
    ensures var u := Upd(t, w, t.conns[w].(subName := name));
      Sane(u) && (Idle(t.conns[w]) ==> Idle(u.conns[w]))
  {
    hide Balanced, ConnOk, Settled, Sane, SaneBut;
    var v := t.conns[w];
    SaneOn(t, w);
    ListedOk(v, v.item, v.link, name);
    BalancedUpd(t, w, v.(subName := name), multiset{}, multiset{});
    OneTouched(t, Upd(t, w, v.(subName := name)), w, v.(subName := name));
  }

  lemma KeepsIdle(v: Conn, u: Conn, name: string)
    requires u == v.(item := u.item, link := u.link)
    ensures Idle(v) ==> Idle(u) && Idle(u.(subName := name))
  {
  }

  lemma PushedConns(s: State, w: Connect, q: nat)
    requires w in s.conns && q < |s.lists|
    ensures PushItem(s, w, q).conns == s.conns[w := Listed(s.conns[w], q)]
  {
    var v := s.conns[w];
    UpdTwice(s, w, v.(link := v.link + 1), Listed(v, q));
  }

  // Opening the queue

  lemma CreateQueueBalanced(s: State, name: string)
    requires Balanced(s, multiset{}, multiset{})
    ensures Balanced(CreateQueue(s, name), multiset{}, multiset{})
  {
    var t := CreateQueue(s, name);
    hide Exact, Placed, Opened, WaitOk;
    CreateQueueWf(s, name);
    NewListOk(s, name) by { hide WorkersLive, ClientsLive, WaitLive, ListsLive; }
    hide ItemsOk, Wf, Grounded, ConnsLive;
    var wline, cline := t.workers[|s.workers|], t.clients[|s.clients|];
    assert t.workers == s.workers + [wline] && t.clients == s.clients + [cline];
    FlatNewLine(s.workers, wline);
    FlatNewLine(s.clients, cline);
    SameCounts(s, t);
  }

  lemma SameCounts(s: State, t: State)
    requires Exact(s, multiset{}) && Placed(s, multiset{})
    requires s.conns == t.conns && s.table == t.table && s.wait == t.wait && s.dead == t.dead && s.fault == t.fault
    requires Flat(s.workers) == Flat(t.workers) && Flat(s.clients) == Flat(t.clients)
    ensures Exact(t, multiset{}) && Placed(t, multiset{})
  {
    hide Waiting, Linking, Serving, Flat, Callers;
    forall x | x in s.conns ensures Pointers(t, x) == Pointers(s, x) && Places(t, x) == Places(s, x) {
    }
    hide Pointers, Places;
  }

  lemma NewListOk(s: State, name: string)
    requires ItemsOk(s.lists, s.conns) && ConnsLive(s.conns, |s.lists|, s.threads)
    ensures ItemsOk(s.lists + [[]], s.conns)
  {
  }

  lemma OpenQueueSane(s: State, name: string, w: Connect)
    requires SaneBut(s, w) && Wf(s)
    ensures SaneBut(OpenQueue(s, name), w) && OpenQueue(s, name).conns == s.conns
  {
    hide Balanced, ConnOk;
    CreateQueueBalanced(s, name);
  }

  lemma ResolveConnectionIdSane(s: State, w: Connect, rnd: Entropy)
    requires SaneBut(s, w)
    ensures SaneBut(ResolveConnectionId(s, w, rnd), w)
    ensures Idle(s.conns[w]) ==> Idle(ResolveConnectionId(s, w, rnd).conns[w])
  {
    hide Balanced, ConnOk, Settled;
    if s.conns[w].connectionId == "" {
      var v := s.conns[w].(connectionId := GeneratedId(s.idIndex + 1, rnd));
      BalancedUpd(s, w, v, multiset{}, multiset{});
      BalancedIndex(Upd(s, w, v), s.idIndex + 1);
      NamedIdle(s.conns[w], v.connectionId);
    }
  }

  lemma NamedIdle(v: Conn, id: string)
    ensures Idle(v) ==> Idle(v.(connectionId := id))
  {
  }

  lemma PopItemSane(s: State, w: Connect)
    requires SaneBut(s, w) && Wf(s)
    ensures SaneBut(PopItem(s, w), w)
    ensures Idle(s.conns[w]) ==> Idle(PopItem(s, w).conns[w])
  {
    hide Balanced, ConnOk, Settled, Wf, Grounded, ConnsLive, Idle;
    ConnIsLive(s, w);
    PopItemBalanced(s, w);
    PoppedConns(s, w);
    KeepsIdle(s.conns[w], Unlisted(s.conns[w]), "");
    hide PopItem;
  }

  function Unlisted(v: Conn): Conn {
    if v.item.None? then v else v.(item := None, link := v.link - 1)
  }

  lemma PoppedConns(s: State, w: Connect)
    requires w in s.conns && (s.conns[w].item.Some? ==> s.conns[w].item.value < |s.lists|)
    ensures PopItem(s, w).conns == s.conns[w := Unlisted(s.conns[w])]
  {
    var v := s.conns[w];
    hide Without;
    if v.item.Some? {
      UpdTwice(s, w, v.(item := None), Unlisted(v));
    }
  }

  lemma PrepareSane(s: State, w: Connect, name: string, rnd: Entropy)
    requires SaneBut(s, w) && Wf(s) && Idle(s.conns[w])
    ensures SaneBut(Prepare(s, w, name, rnd), w) && Idle(Prepare(s, w, name, rnd).conns[w])
  {
    hide Balanced, ConnOk, Grounded, Idle;
    OpenQueueSane(s, name, w);
    OpenQueueWf(s, name);
    var a := OpenQueue(s, name);
    ResolveConnectionIdSane(a, w, rnd);
    ResolveConnectionIdWf(a, w, rnd);
    PopItemSane(ResolveConnectionId(a, w, rnd), w);
  }

  lemma ServeSane(d: State, q: nat, w: Connect, name: string, rnd: Entropy)
    requires SaneBut(d, w) && Wf(d) && Idle(d.conns[w]) && q < |d.lists|
    ensures var r := Serve(d, q, w, name, rnd);
      Sane(r.s) && (!r.taken ==> Idle(r.s.conns[w]))
  {
    hide Balanced, ConnOk, Grounded, FindMessage, Take, Park, Enlist;
    ConnHome(d, w);
    FindMessageSane(d, q, d.conns[w].nloop, w, -1, rnd);
    match FindMessage(d, q, d.conns[w].nloop, w, -1, rnd)
    case FoundMessage(t, l, i) =>
      TakeSane(t, q, l, i, w);
      TakeWf(t, q, l, i, w);
      TakeOpen(t, q, l, i, w);
      EnlistSane(Take(t, q, l, i, w), q, w, name);
    case NoMessage(t) =>
      ParkSane(t, q, w);
      ParkWf(t, q, w);
      EnlistSane(Park(t, q, w), q, w, name);
  }

  lemma ConnHome(d: State, w: Connect)
    requires Wf(d) && w in d.conns
    ensures d.conns[w].nloop < d.threads && |d.clients| == |d.lists| == |d.workers|
  {
  }

  lemma TakeOpen(s: State, q: nat, l: nat, i: nat, w: Connect)
    requires SaneBut(s, w) && Wf(s) && !s.conns[w].closed
    requires q < |s.clients| && l < |s.clients[q]| && i < |s.clients[q][l]|
    requires Sane(Take(s, q, l, i, w)) && w in Take(s, q, l, i, w).conns
    ensures !Take(s, q, l, i, w).conns[w].closed
  {
    TakeTable(s, q, l, i, w);
    hide Take, Wf, Exact, Placed, WaitOk, ItemsOk, ConnOk, Grounded, ConnsLive;
  }

  lemma TakeTable(s: State, q: nat, l: nat, i: nat, w: Connect)
    requires Wf(s) && w in s.conns
    requires q < |s.clients| && l < |s.clients[q]| && i < |s.clients[q][l]|
    ensures Take(s, q, l, i, w).table == s.table
  {
    hide Wf, Grounded, ConnsLive, ServedNoid, ServedWithId, Served, Picked, SetClients;
    EraseMessageWf(s, q, l, i);
    MessageOfWf(s, q, l, i);
    ErasedTable(s, q, l, i);
    hide EraseMessage;
  }

  lemma ErasedTable(s: State, q: nat, l: nat, i: nat)
    requires q < |s.clients| && l < |s.clients[q]| && i < |s.clients[q][l]|
    requires MsgLive(s.clients[q][l][i], s.conns.Keys)
    ensures EraseMessage(s, q, l, i).table == s.table
  {
  }

  lemma MessageOfWf(s: State, q: nat, l: nat, i: nat)
    requires Wf(s) && q < |s.clients| && l < |s.clients[q]| && i < |s.clients[q][l]|
    ensures MsgLive(s.clients[q][l][i], s.conns.Keys)
  {
  }

  lemma AddWorkerSane(s: State, w: Connect, name: string, rnd: Entropy)
    requires SaneBut(s, w) && Wf(s) && Idle(s.conns[w])
    ensures var r := AddWorker(s, w, name, rnd);
      Sane(r.s) && (!r.taken ==> Idle(r.s.conns[w]))
  {
    hide Balanced, ConnOk, Grounded, Idle;
    PrepareSane(s, w, StripSlash(name), rnd);
    ServeSane(Prepare(s, w, StripSlash(name), rnd), OpenedQueue(s, StripSlash(name)), w, StripSlash(name), rnd);
  }

  /** add_worker: whatever the list of names, the broker ends up sane. */
  lemma {:induction false} AddWorkersSane(s: State, w: Connect, names: seq<string>, rnd: Entropy)
    requires SaneBut(s, w) && Wf(s) && Idle(s.conns[w]) && (names == [] ==> Sane(s))
    ensures Sane(AddWorkers(s, w, names, rnd))
    decreases |names|
  {
    hide Balanced, ConnOk, Grounded, Idle, AddWorker;
    if names != [] {
      AddWorkerSane(s, w, names[0], rnd);
      var r := AddWorker(s, w, names[0], rnd);
      if !r.taken {
        AddWorkersSane(r.s, w, names[1..], rnd);
      }
    }
  }
}
