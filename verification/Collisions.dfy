/**
 Two consequences of request ids that clients choose themselves: a call whose id is taken is
 rolled back, and a disconnect finds its own entry only if nobody else holds the id.
 */
module Collisions {
  import opened Connections
  import opened Deques
  import opened Names
  import opened BrokerState
  import opened Common
  import opened References
  import opened Ledger
  import opened Invariants
  import opened ClientRequests
  import opened WorkerRequests
  import opened CallProofs
  import opened Sessions
  import opened SessionProofs
  import opened LifeProofs
  import opened Order
  import opened OrderProofs
  import opened Runs

  /** The ready workers of a deque, in order. */
  function ReadyIn(conns: map<Connect, Conn>, d: seq<Connect>): seq<Connect> {
    if d == [] then []
    else (if d[0] in conns && Ready(conns[d[0]]) then [d[0]] else []) + ReadyIn(conns, d[1..])
  }

  /** Ready workers are exactly as they were. */
  predicate SameReady(conns: map<Connect, Conn>, left: map<Connect, Conn>) {
    && conns.Keys == left.Keys
    && forall w :: w in conns ==>
        (Ready(conns[w]) <==> Ready(left[w])) && (Ready(conns[w]) ==> left[w] == conns[w])
  }

  lemma {:induction false} SameReadyIn(conns: map<Connect, Conn>, left: map<Connect, Conn>, d: seq<Connect>)
    requires SameReady(conns, left)
    ensures ReadyIn(left, d) == ReadyIn(conns, d)
  {
    if d != [] {
      SameReadyIn(conns, left, d[1..]);
    }
  }

  /** What a scan without required worker keeps: ready workers everywhere, and every other deque. */
  ghost predicate Passed(s: State, t: State, q: nat) {
    && SameReady(s.conns, t.conns)
    && t.clients == s.clients && t.wait == s.wait && |t.workers| == |s.workers|
    && (forall p :: 0 <= p < |s.workers| ==> |t.workers[p]| == |s.workers[p]|)
    && (forall p :: 0 <= p < |s.workers| && p != q ==> t.workers[p] == s.workers[p])
    && (forall l :: q < |s.workers| && 0 <= l < |s.workers[q]| ==>
          ReadyIn(t.conns, t.workers[q][l]) == ReadyIn(s.conns, s.workers[q][l]))
  }

  lemma PassedTrans(s: State, t: State, u: State, q: nat)
    requires Passed(s, t, q) && Passed(t, u, q)
    ensures Passed(s, u, q)
  {
    hide Ready, ReadyIn;
  }

  lemma PassedRefl(s: State, q: nat)
    ensures Passed(s, s, q)
  {
  }

  /** Erasing the entry of a worker that is not ready. */
  lemma ErasePassed(s: State, q: nat, l: nat)
    requires q < |s.workers| && l < |s.workers[q]| && s.workers[q][l] != []
    requires s.workers[q][l][0] in s.conns && !Ready(s.conns[s.workers[q][l][0]])
    ensures Passed(s, EraseWorker(s, q, l, 0), q)
  {
    var d := s.workers[q][l];
    var w := d[0];
    var a := SetWorkers(s, q, l, RemoveAt(d, 0));
    var t := Unlink(a, w);
    UnlinkedReady(a, w);
    assert RemoveAt(d, 0) == d[1..];
    assert t.workers == a.workers && t.clients == s.clients && t.wait == s.wait;
    hide Unlink;
    forall l' | 0 <= l' < |s.workers[q]|
      ensures ReadyIn(t.conns, t.workers[q][l']) == ReadyIn(s.conns, s.workers[q][l'])
    {
      SameReadyIn(s.conns, t.conns, t.workers[q][l']);
    }
  }

  lemma UpdReady(conns: map<Connect, Conn>, w: Connect, v: Conn)
    requires w in conns && !Ready(conns[w]) && !Ready(v)
    ensures SameReady(conns, conns[w := v])
  {
    hide Ready;
    assert conns[w := v].Keys == conns.Keys;
  }

  lemma UnlinkedReady(s: State, w: Connect)
    requires w in s.conns && !Ready(s.conns[w])
    ensures SameReady(s.conns, Unlink(s, w).conns)
    ensures Unlink(s, w).workers == s.workers && Unlink(s, w).clients == s.clients && Unlink(s, w).wait == s.wait
  {
    UpdReady(s.conns, w, s.conns[w].(link := s.conns[w].link - 1));
    UnlinkedConns(s, w);
    hide SameReady;
  }

  lemma {:induction false} ScanPassed(s: State, q: nat, l: nat)
    requires Wf(s) && q < |s.workers| && l < s.threads
    ensures var r := ScanWorkers(s, q, l, "", 0);
      && Passed(s, r.s, q)
      && (r.FoundWorker? ==>
            && r.l == l && r.i == 0
            && r.s.workers[q][l][0] in r.s.conns && Ready(r.s.conns[r.s.workers[q][l][0]]))
    decreases |s.workers[q][l]|
  {
    hide Grounded, ReadyIn, Passed;
    PassedRefl(s, q);
    if s.workers[q][l] != [] {
      GroundedEntry(s, q, l, 0);
      if !Ready(s.conns[s.workers[q][l][0]]) {
        EraseWorkerWf(s, q, l, 0);
        ErasePassed(s, q, l);
        var t := EraseWorker(s, q, l, 0);
        EraseScanned(s, q, l, 0);
        hide EraseWorker;
        ScanPassed(t, q, l);
        PassedTrans(s, t, ScanWorkers(t, q, l, "", 0).s, q);
      }
    }
  }

  lemma {:induction false} FindPassed(s: State, q: nat, local: nat, index: int)
    requires Wf(s) && q < |s.workers| && local < s.threads && -1 <= index
    ensures var r := FindWorker(s, q, local, "", index);
      && Passed(s, r.s, q)
      && (r.FoundWorker? ==>
            && r.i == 0
            && r.s.workers[q][r.l][0] in r.s.conns && Ready(r.s.conns[r.s.workers[q][r.l][0]]))
    decreases s.threads - index
  {
    hide Grounded, Passed, ScanWorkers;
    PassedRefl(s, q);
    if index < s.threads {
      if index == local {
        FindPassed(s, q, local, index + 1);
      } else {
        ScanPassed(s, q, LoopAt(index, local));
        match ScanWorkers(s, q, LoopAt(index, local), "", 0)
        case FoundWorker(t, l, i) =>
        case NoWorker(t) =>
          FindPassed(t, q, local, index + 1);
          PassedTrans(s, t, FindWorker(t, q, local, "", index + 1).s, q);
      }
    }
  }

  /** The call of c was about to go to worker w, which needs an id, and the id is already waiting. */
  predicate Collides(e: State, w: Connect, c: Connect, rnd: Entropy) {
    && w in e.conns && c in e.conns
    && !e.conns[c].noResponse && !e.conns[w].noid
    && ResolvedId(e, c, rnd) in e.wait
  }

  lemma FrontAgain<T>(ds: Deques<T>, q: nat, l: nat)
    requires q < |ds| && l < |ds[q]| && ds[q][l] != []
    ensures var d := RemoveAt(ds[q][l], 0);
      var es := SetAt(ds, q, l, d);
      SetAt(es, q, l, InsertAt(es[q][l], 0, ds[q][l][0])) == ds
  {
    var d := ds[q][l];
    assert InsertAt(RemoveAt(d, 0), 0, d[0]) == d;
    SetTwice(ds, q, l, RemoveAt(d, 0), d);
    assert ds[q][l := d] == ds[q];
  }

  lemma RollbackIs(u: State, q: nat, w: Connect, c: Connect)
    requires Wf(u) && q < |u.workers| && w in u.conns && c in u.conns && w != c && !u.conns[c].closed
    ensures var l := u.conns[w].nloop;
      var z := Rollback(u, q, w, c);
      && l < |u.workers[q]|
      && z.workers == SetAt(u.workers, q, l, InsertAt(u.workers[q][l], 0, w))
      && z.clients == u.clients && z.wait == u.wait
      && z.conns == u.conns[w := u.conns[w].(link := u.conns[w].link + 1)][c := Told(u.conns[c], CollisionId)]
  {
    ConnIsLive(u, w);
    hide Grounded;
  }

  /** w lost a link and got it back, c took an id and was told. */
  lemma BackAndTold(conns: map<Connect, Conn>, w: Connect, c: Connect, id: string)
    requires w in conns && c in conns && w != c && !Ready(conns[c])
    ensures var v := conns[w];
      var x := conns[c].(id := id);
      var z := conns[w := v.(link := v.link - 1)][c := x][w := v][c := Told(x, CollisionId)];
      && SameReady(conns, z)
      && z[c].out == conns[c].out + [CollisionId] && z[c].status == conns[c].status
  {
    var v := conns[w];
    var y := Told(conns[c].(id := id), CollisionId);
    assert conns[w := v.(link := v.link - 1)][c := conns[c].(id := id)][w := v][c := y] == conns[c := y];
    UpdReady(conns, c, y);
  }

  lemma ErasedConns(t: State, q: nat, l: nat)
    requires q < |t.workers| && l < |t.workers[q]| && t.workers[q][l] != [] && t.workers[q][l][0] in t.conns
    ensures var w := t.workers[q][l][0];
      var e := EraseWorker(t, q, l, 0);
      && e.conns == t.conns[w := t.conns[w].(link := t.conns[w].link - 1)]
      && e.workers == SetAt(t.workers, q, l, RemoveAt(t.workers[q][l], 0))
      && e.clients == t.clients && e.wait == t.wait
  {
    var a := SetWorkers(t, q, l, RemoveAt(t.workers[q][l], 0));
    UnlinkedConns(a, t.workers[q][l][0]);
    UnlinkRest(a, t.workers[q][l][0]);
    hide Unlink;
  }

  lemma UnlinkRest(s: State, w: Connect)
    requires w in s.conns
    ensures Unlink(s, w).workers == s.workers && Unlink(s, w).clients == s.clients && Unlink(s, w).wait == s.wait
  {
  }

  lemma ResolvedConns(e: State, c: Connect, rnd: Entropy)
    requires c in e.conns
    ensures var u := ResolveId(e, c, rnd);
      && u.conns == e.conns[c := e.conns[c].(id := ResolvedId(e, c, rnd))]
      && u.workers == e.workers && u.clients == e.clients && u.wait == e.wait
  {
    hide ResolvedId;
  }

  /** What a call that was turned away leaves behind. */
  ghost predicate RolledBack(t: State, u: State, c: Connect) {
    && u.workers == t.workers && u.clients == t.clients && u.wait == t.wait
    && SameReady(t.conns, u.conns)
    && c in t.conns && u.conns[c].out == t.conns[c].out + [CollisionId] && u.conns[c].status == t.conns[c].status
  }

  /** u is t without the first entry of the deque, and with an id for c. */
  lemma PutBack(t: State, u: State, q: nat, l: nat, c: Connect, id: string)
    requires q < |t.workers| && l < |t.workers[q]| && t.workers[q][l] != [] && t.workers[q][l][0] in t.conns
    requires c in t.conns && c != t.workers[q][l][0] && !t.conns[c].closed && !Ready(t.conns[c])
    requires t.conns[t.workers[q][l][0]].nloop == l && Wf(u)
    requires u.workers == SetAt(t.workers, q, l, RemoveAt(t.workers[q][l], 0)) && u.clients == t.clients
    requires u.wait == t.wait
    requires var w := t.workers[q][l][0];
      u.conns == t.conns[w := t.conns[w].(link := t.conns[w].link - 1)][c := t.conns[c].(id := id)]
    ensures RolledBack(t, Rollback(u, q, t.workers[q][l][0], c), c)
  {
    hide Wf, Rollback, SameReady, Ready, Grounded, ConnsLive;
    var w := t.workers[q][l][0];
    FrontAgain(t.workers, q, l);
    RollbackIs(u, q, w, c);
    assert u.conns[w].(link := u.conns[w].link + 1) == t.conns[w];
    BackAndTold(t.conns, w, c, id);
  }

  /** A call without a required worker whose id is taken leaves queue, workers and waiting calls as they were. */
  lemma CollisionRollsBack(s: State, q: nat, c: Connect, name: string, rnd: Entropy)
    requires SaneBut(s, c) && Orderly(s) && Wf(s) && q < |s.lists| && Asking(s.conns[c])
    requires s.conns[c].requiredWorker == ""
    ensures var r := FindWorker(s, q, s.conns[c].nloop, "", -1);
      (&& r.FoundWorker? && r.s.workers[q][r.l][r.i] in r.s.conns
       && Collides(EraseWorker(r.s, q, r.l, r.i), r.s.workers[q][r.l][r.i], c, rnd)) ==>
        && Passed(s, Seek(s, q, c, name, rnd), q)
        && Seek(s, q, c, name, rnd).conns[c].out == s.conns[c].out + [CollisionId]
        && Seek(s, q, c, name, rnd).conns[c].status == Net
  {
    hide Balanced, ConnOk, Orderly, Grounded, FindWorker, Passed;
    ConnIsLive(s, c);
    FindPassed(s, q, s.conns[c].nloop, -1);
    FindWorkerSane(s, q, s.conns[c].nloop, "", -1, c);
    FindWorkerOrderly(s, q, s.conns[c].nloop, "", -1);
    var r := FindWorker(s, q, s.conns[c].nloop, "", -1);
    if r.FoundWorker? && Collides(EraseWorker(r.s, q, r.l, r.i), r.s.workers[q][r.l][r.i], c, rnd) {
      StillAsking(s, r.s, c);
      SameOut(s, r.s, c);
      DispatchRollsBack(r.s, q, r.l, c, name, rnd);
      RolledBackPassed(s, r.s, Seek(s, q, c, name, rnd), q, c);
    }
  }

  lemma SameOut(s: State, t: State, c: Connect)
    requires OnlyLinks(s, t) && c in s.conns
    ensures c in t.conns && t.conns[c].out == s.conns[c].out
  {
    assert Core(t.conns[c]) == Core(s.conns[c]);
  }

  lemma RolledBackPassed(s: State, t: State, u: State, q: nat, c: Connect)
    requires Passed(s, t, q) && RolledBack(t, u, c)
    ensures Passed(s, u, q)
  {
    hide Ready;
    forall l | q < |s.workers| && 0 <= l < |s.workers[q]|
      ensures ReadyIn(u.conns, u.workers[q][l]) == ReadyIn(s.conns, s.workers[q][l])
    {
      SameReadyIn(t.conns, u.conns, t.workers[q][l]);
    }
    hide ReadyIn;
  }

  lemma DispatchRollsBack(t: State, q: nat, l: nat, c: Connect, name: string, rnd: Entropy)
    requires Orderly(t) && Wf(t) && q < |t.workers| && l < t.threads && l < |t.workers[q]| && t.workers[q][l] != []
    requires t.workers[q][l][0] in t.conns && Ready(t.conns[t.workers[q][l][0]]) && c in t.conns && Asking(t.conns[c])
    requires Collides(EraseWorker(t, q, l, 0), t.workers[q][l][0], c, rnd)
    ensures RolledBack(t, Dispatch(t, q, l, 0, c, name, rnd), c)
  {
    hide Orderly, Wf, EraseWorker, ResolveId, Rollback, ResolvedId, RolledBack, Grounded, ConnsLive;
    var w := t.workers[q][l][0];
    HomeOf(t, q, l);
    EraseWorkerWf(t, q, l, 0);
    ErasedConns(t, q, l);
    var e := EraseWorker(t, q, l, 0);
    ResolveIdWf(e, c, rnd);
    ResolvedConns(e, c, rnd);
    PutBack(t, ResolveId(e, c, rnd), q, l, c, ResolvedId(e, c, rnd));
  }

  lemma HomeOf(t: State, q: nat, l: nat)
    requires Orderly(t) && q < |t.workers| && l < |t.workers[q]| && t.workers[q][l] != []
    ensures t.workers[q][l][0] in t.conns && t.conns[t.workers[q][l][0]].nloop == l
  {
    hide Unmatched, Sorted, Accounted, Stamped, Delivered;
    assert Entry(t.conns, t.workers[q][l][0], l);
  }

  // Disconnecting

  /** When the entry under the own id is somebody else's, the pointer to that client is lost but stays counted. */
  lemma StrangersEntryLost(s: State, c: Connect)
    requires Sane(s) && Wf(s) && c in s.conns && !s.conns[c].closed && !OwnEntry(s, c)
    ensures var t := Disconnect(s, c); var id := s.conns[c].id; var d := s.wait[id];
      && d != c && t.wait == s.wait - {id}
      && d in t.conns && t.conns[d] == s.conns[d] && t.conns[d].link == Pointers(t, d) + 1
    ensures !Sane(Disconnect(s, c))
  {
    hide Balanced, ConnOk, Wf, Exact, Disconnect, Grounded, ConnsLive;
    var v := s.conns[c];
    EntryWaits(s, v.id);
    ClientDuties(v) by { assert ConnOk(v); }
    ForgottenStranger(s, c);
    SaneIsExact(s);
    hide Sane;
    PointerLost(s, Disconnect(s, c), c, s.wait[v.id]);
    NotSane(Disconnect(s, c));
  }

  lemma ClientDuties(v: Conn)
    requires ConnOk(v) && !v.closed && v.status == ClientWaitResult
    ensures !v.failOnDisconnect && v.client.None?
  {
  }

  /** Everything a disconnecting client does: its own record, and the entry under its id. */
  lemma ForgottenStranger(s: State, c: Connect)
    requires Wf(s) && c in s.conns && !s.conns[c].failOnDisconnect
    requires s.conns[c].status == ClientWaitResult && s.conns[c].id != "" && s.conns[c].id in s.wait
    ensures var t := Disconnect(s, c);
      && t.wait == s.wait - {s.conns[c].id} && t.clients == s.clients && t.workers == s.workers
      && t.table == s.table - {c}
      && c in t.conns && t.conns == s.conns[c := t.conns[c]] && t.conns[c].client == s.conns[c].client
  {
    ConnIsLive(s, c);
    SetClosedWf(s, c);
    var a := SetClosed(s, c);
    hide Wf, WorkersLive, ClientsLive, ListsLive, WaitLive, Grounded, ConnsLive;
    PopItemWf(a, c);
    PopOwn(a, c);
    var p := PopItem(a, c);
    hide PopItem;
    var f := p.(wait := p.wait - {p.conns[c].id});
    UnlinkOwn(f, c);
    var g := Unlink(f, c);
    assert ForgetCall(p, c) == g;
    UnlinkOwn(g, c);
    hide Unlink;
    assert g.conns[c].failOnDisconnect == false;
    assert OnDisconnect(a, c) == g;
    assert Disconnect(s, c) == LeaveTable(Unlink(g, c), c);
    var z := Unlink(g, c);
    OwnChain(s.conns, c, a.conns[c], p.conns[c], g.conns[c], z.conns[c]);
  }

  lemma OwnChain(m: map<Connect, Conn>, c: Connect, v1: Conn, v2: Conn, v3: Conn, v4: Conn)
    ensures m[c := v1][c := v2][c := v3][c := v4] == m[c := v4]
  {
  }

  lemma UnlinkOwn(s: State, c: Connect)
    requires c in s.conns
    ensures var t := Unlink(s, c);
      && t.conns == s.conns[c := s.conns[c].(link := s.conns[c].link - 1)] && t.wait == s.wait && t.clients == s.clients
      && t.workers == s.workers && t.table == s.table
  {
  }

  lemma PopOwn(s: State, c: Connect)
    requires c in s.conns && (s.conns[c].item.Some? ==> s.conns[c].item.value < |s.lists|)
    ensures var t := PopItem(s, c);
      && c in t.conns && t.conns == s.conns[c := t.conns[c]] && t.wait == s.wait && t.clients == s.clients
      && t.workers == s.workers && t.table == s.table && t.conns[c].client == s.conns[c].client
      && t.conns[c].status == s.conns[c].status && t.conns[c].id == s.conns[c].id
      && t.conns[c].failOnDisconnect == s.conns[c].failOnDisconnect
  {
    hide Without;
    if s.conns[c].item.Some? {
      var q := s.conns[c].item.value;
      var a := Upd(s, c, s.conns[c].(item := None)).(lists := s.lists[q := Without(s.lists[q], c)]);
      UnlinkOwn(a, c);
      hide Unlink;
    }
  }

  /** The entry that pointed at d is gone, but its link still counts. */
  lemma PointerLost(s: State, t: State, c: Connect, d: Connect)
    requires Exact(s, multiset{}) && c in s.conns && d in s.conns && c != d
    requires s.conns[c].id in s.wait && s.wait[s.conns[c].id] == d
    requires t.wait == s.wait - {s.conns[c].id} && t.clients == s.clients && t.workers == s.workers
    requires t.table == s.table - {c}
    requires c in t.conns && t.conns == s.conns[c := t.conns[c]] && t.conns[c].client == s.conns[c].client
    ensures d in t.conns && t.conns[d] == s.conns[d] && t.conns[d].link == Pointers(t, d) + 1
    ensures !Exact(t, multiset{})
  {
    SameLinking(s.conns, c, t.conns[c]);
    WaitRemoved(s.wait, s.conns[c].id);
    hide CallersIn, WorkersIn, Waiting, Linking;
    assert t.conns[d] == s.conns[d] && Linking(t.conns, d) == Linking(s.conns, d);
    assert Pointers(t, d) + 1 == Pointers(s, d);
  }

  lemma NotSane(t: State)
    requires !Exact(t, multiset{})
    ensures !Sane(t)
  {
    hide Exact, Wf, Placed, WaitOk, ItemsOk, Opened, ConnOk, Grounded, ConnsLive;
  }

  lemma SaneIsExact(s: State)
    requires Sane(s)
    ensures Exact(s, multiset{})
  {
    hide Exact, Wf, Placed, WaitOk, ItemsOk, Opened, ConnOk, Grounded, ConnsLive;
  }

  /** A disconnect keeps the accounts exactly when the entry under the connection's id, if any, is its own. */
  lemma DisconnectIsSafeIff(s: State, c: Connect)
    requires Sane(s) && Wf(s) && InTable(s, c)
    ensures Sane(Disconnect(s, c)) <==> OwnEntry(s, c)
  {
    TableIsOpen(s, c);
    hide Sane, Wf, Disconnect, Grounded, ConnsLive;
    if OwnEntry(s, c) {
      DisconnectSane(s, c);
    } else {
      StrangersEntryLost(s, c);
    }
  }

  /** A client that is taken from a queue keeps its id, and its entry, when it disconnects. */
  lemma BusyKeepsEntry(s: State, c: Connect)
    requires Wf(s) && c in s.conns && !s.conns[c].failOnDisconnect && s.conns[c].status != ClientWaitResult
    ensures Disconnect(s, c).wait == s.wait
  {
    ConnIsLive(s, c);
    SetClosedWf(s, c);
    var a := SetClosed(s, c);
    hide Wf, WorkersLive, ClientsLive, ListsLive, WaitLive, Grounded, ConnsLive;
    PopItemWf(a, c);
    PopOwn(a, c);
    hide PopItem;
    ForgetIdle(PopItem(a, c), c);
    hide ForgetCall;
    UnlinkOwn(PopItem(a, c), c);
    hide Unlink;
    assert OnDisconnect(a, c) == PopItem(a, c);
  }

  /** A client that goes away while it is awaited frees its id unless a worker took its call from a queue. */
  lemma DisconnectFreesIdIff(s: State, c: Connect, id: string)
    requires Sane(s) && Wf(s) && InTable(s, c) && id in s.wait && s.wait[id] == c
    ensures s.conns[c].id == id
    ensures id !in Disconnect(s, c).wait <==> s.conns[c].status == ClientWaitResult
  {
    hide Balanced, ConnOk, Wf, Disconnect, Grounded, ConnsLive;
    TableIsOpen(s, c);
    EntryWaits(s, id);
    AwaitedDuties(s.conns[c]) by { assert ConnOk(s.conns[c]); }
    if s.conns[c].status == ClientWaitResult {
      ForgottenStranger(s, c);
    } else {
      BusyKeepsEntry(s, c);
    }
  }

  lemma AwaitedDuties(v: Conn)
    requires ConnOk(v) && !v.closed && InCall(v)
    ensures !v.failOnDisconnect
  {
  }
}
