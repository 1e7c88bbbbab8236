/**
 The two accounts the broker keeps, and what every small update does to them.

 References: the link count of a connection equals the number of pointers to it (module
 References). Places: the unanswered call of an open client is in exactly one place, which is
 a queued message, an entry of `wait`, or a worker without ids that serves it; `owed` holds the
 clients whose call a handler has in hand.
 */
module Ledger {
  import opened Connections
  import opened Deques
  import opened BrokerState
  import opened References

  /** The workers without ids that owe c a result. */
  function Serving(conns: map<Connect, Conn>, c: Connect): set<Connect> {
    set w | w in conns && conns[w].status == WorkerWaitResult && conns[w].client == Some(c)
  }

  function Places(s: State, c: Connect): nat {
    CallersIn(s.clients)[c] + |Waiting(s.wait, c)| + |Serving(s.conns, c)|
  }

  ghost predicate Placed(s: State, owed: multiset<Connect>) {
    forall c :: c in s.conns && !s.conns[c].closed ==>
      && Places(s, c) + owed[c] == (if InCall(s.conns[c]) then 1 else 0)
      && (s.conns[c].status == Busy ==> CallersIn(s.clients)[c] == 0)
  }

  /** Entries of `wait` are keyed by the id of the client they point at. */
  predicate WaitOk(wait: map<string, Connect>, conns: map<Connect, Conn>) {
    forall id :: id in wait ==>
      id != "" && wait[id] in conns && conns[wait[id]].id == id
  }

  /** A connection is in the list its item names, once, and in no other. */
  predicate ItemsOk(lists: seq<seq<Connect>>, conns: map<Connect, Conn>) {
    forall q, c :: 0 <= q < |lists| && c in conns ==>
      multiset(lists[q])[c] == (if conns[c].item == Some(q) then 1 else 0)
  }

  predicate Opened(conns: map<Connect, Conn>, table: set<Connect>) {
    forall c :: c in conns ==> (c in table <==> !conns[c].closed)
  }

  ghost predicate Balanced(s: State, held: multiset<Connect>, owed: multiset<Connect>) {
    && Wf(s)
    && Exact(s, held)
    && Placed(s, owed)
    && WaitOk(s.wait, s.conns)
    && ItemsOk(s.lists, s.conns)
    && Opened(s.conns, s.table)
  }

  lemma OpenHasLink(s: State, c: Connect, held: multiset<Connect>, owed: multiset<Connect>)
    requires Balanced(s, held, owed) && c in s.conns && !s.conns[c].closed
    ensures s.conns[c].link > 0
  {
    hide Wf, Placed, WaitOk, ItemsOk, Grounded, ConnsLive;
    assert Pointers(s, c) > 0;
  }

  // Placed

  lemma SamePlaced(s: State, t: State, owed: multiset<Connect>)
    requires Placed(s, owed) && s.clients == t.clients && s.wait == t.wait && s.conns == t.conns
    ensures Placed(t, owed)
  {
  }

  predicate SameService(v: Conn, u: Conn) {
    && v.client == u.client
    && (v.client.Some? ==> (v.status == WorkerWaitResult <==> u.status == WorkerWaitResult))
  }

  lemma SameServing(conns: map<Connect, Conn>, c: Connect, v: Conn)
    requires c in conns && SameService(conns[c], v)
    ensures forall x :: Serving(conns[c := v], x) == Serving(conns, x)
  {
  }

  lemma UpdPlaced(s: State, c: Connect, v: Conn, owed: multiset<Connect>)
    requires Placed(s, owed) && c in s.conns && SameService(s.conns[c], v)
    requires v.closed || SameWaiting(s.conns[c], v)
    ensures Placed(Upd(s, c, v), owed)
  {
    hide Serving, Waiting, CallersIn;
    SameServing(s.conns, c, v);
  }

  /** The call in hand is over: c no longer waits. */
  lemma ReleasePlaced(s: State, c: Connect, v: Conn, owed: multiset<Connect>)
    requires Placed(s, owed) && c in s.conns && SameService(s.conns[c], v) && !s.conns[c].closed
    requires InCall(s.conns[c]) && !InCall(v) && owed[c] > 0
    ensures Placed(Upd(s, c, v), owed - multiset{c})
  {
    hide Serving, Waiting, CallersIn;
    SameServing(s.conns, c, v);
  }

  /** c starts to wait, with its call in hand. */
  lemma WaitPlaced(s: State, c: Connect, v: Conn, owed: multiset<Connect>)
    requires Placed(s, owed) && c in s.conns && SameService(s.conns[c], v) && !s.conns[c].closed
    requires !InCall(s.conns[c]) && v.status == ClientWaitResult
    ensures Placed(Upd(s, c, v), owed + multiset{c})
  {
    hide Serving, Waiting, CallersIn;
    SameServing(s.conns, c, v);
  }

  lemma MessageOutPlaced(s: State, q: nat, l: nat, i: nat, owed: multiset<Connect>)
    requires Placed(s, owed)
    requires q < |s.clients| && l < |s.clients[q]| && i < |s.clients[q][l]|
    ensures Placed(SetClients(s, q, l, RemoveAt(s.clients[q][l], i)), owed + multiset(Callers([s.clients[q][l][i]])))
  {
    hide Serving, Waiting;
    CallersRemoved(s.clients, q, l, i);
  }

  /** The client of this message, if any, waits for a worker. */
  predicate CallerWaiting(conns: map<Connect, Conn>, m: Msg) {
    m.conn.Some? && m.conn.value in conns ==> conns[m.conn.value].status == ClientWaitResult
  }

  lemma MessageInPlaced(s: State, q: nat, l: nat, i: nat, m: Msg, owed: multiset<Connect>)
    requires Placed(s, owed + multiset(Callers([m]))) && CallerWaiting(s.conns, m)
    requires q < |s.clients| && l < |s.clients[q]| && i <= |s.clients[q][l]|
    ensures Placed(SetClients(s, q, l, InsertAt(s.clients[q][l], i, m)), owed)
  {
    hide Serving, Waiting;
    CallersInserted(s.clients, q, l, i, m);
  }

  lemma WaitInPlaced(s: State, id: string, c: Connect, owed: multiset<Connect>)
    requires Placed(s, owed + multiset{c}) && id !in s.wait
    ensures Placed(s.(wait := s.wait[id := c]), owed)
  {
    hide Serving, Waiting, CallersIn;
    WaitAdded(s.wait, id, c);
  }

  lemma WaitOutPlaced(s: State, id: string, owed: multiset<Connect>)
    requires Placed(s, owed) && id in s.wait
    ensures Placed(s.(wait := s.wait - {id}), owed + multiset{s.wait[id]})
  {
    hide Serving, Waiting, CallersIn;
    WaitRemoved(s.wait, id);
  }

  lemma ServingAdded(conns: map<Connect, Conn>, w: Connect, c: Connect, v: Conn)
    requires w in conns && (conns[w].client.None? || conns[w].status != WorkerWaitResult)
    requires v.client == Some(c) && v.status == WorkerWaitResult
    ensures |Serving(conns[w := v], c)| == |Serving(conns, c)| + 1
    ensures forall x :: x != c ==> Serving(conns[w := v], x) == Serving(conns, x)
  {
    assert Serving(conns[w := v], c) == Serving(conns, c) + {w};
  }

  lemma ServingRemoved(conns: map<Connect, Conn>, w: Connect, c: Connect, v: Conn)
    requires w in conns && conns[w].client == Some(c) && conns[w].status == WorkerWaitResult
    requires v.client == None || v.status != WorkerWaitResult
    ensures |Serving(conns[w := v], c)| + 1 == |Serving(conns, c)|
    ensures forall x :: x != c ==> Serving(conns[w := v], x) == Serving(conns, x)
  {
    assert Serving(conns, c) == Serving(conns[w := v], c) + {w};
  }

  predicate SameWaiting(v: Conn, u: Conn) {
    && v.closed == u.closed
    && (v.status == ClientWaitResult <==> u.status == ClientWaitResult)
    && (v.status == Busy <==> u.status == Busy)
  }

  lemma ServePlaced(s: State, w: Connect, c: Connect, v: Conn, owed: multiset<Connect>)
    requires Placed(s, owed + multiset{c}) && w in s.conns
    requires s.conns[w].client.None? || s.conns[w].status != WorkerWaitResult
    requires v.client == Some(c) && v.status == WorkerWaitResult && SameWaiting(s.conns[w], v)
    ensures Placed(Upd(s, w, v), owed)
  {
    hide Serving, Waiting, CallersIn;
    ServingAdded(s.conns, w, c, v);
  }

  lemma UnservePlaced(s: State, w: Connect, c: Connect, v: Conn, owed: multiset<Connect>)
    requires Placed(s, owed) && w in s.conns && s.conns[w].client == Some(c) && s.conns[w].status == WorkerWaitResult
    requires (v.client.None? || v.status != WorkerWaitResult) && SameWaiting(s.conns[w], v)
    ensures Placed(Upd(s, w, v), owed + multiset{c})
  {
    hide Serving, Waiting, CallersIn;
    ServingRemoved(s.conns, w, c, v);
  }

  // Both accounts together

  predicate Unawaited(wait: map<string, Connect>, c: Connect) {
    forall id :: id in wait ==> wait[id] != c
  }

  /** An update of c that no account notices. */
  predicate Quiet(u: Conn, v: Conn) {
    && v.link == u.link && v.client == u.client && v.item == u.item && v.closed == u.closed && v.nloop == u.nloop
    && SameWaiting(u, v) && SameService(u, v)
  }

  lemma BalancedUpd(s: State, c: Connect, v: Conn, held: multiset<Connect>, owed: multiset<Connect>)
    requires Balanced(s, held, owed) && c in s.conns && Quiet(s.conns[c], v)
    requires v.id == s.conns[c].id || Unawaited(s.wait, c)
    ensures Balanced(Upd(s, c, v), held, owed)
  {
    hide Wf, Exact, Placed, WaitOk, ItemsOk, Opened, Grounded, ConnsLive;
    KeepsTheRest(s, c, v);
    UpdWf(s, c, v) by { ConnIsLive(s, c); }
    UpdExact(s, c, v, held);
    UpdPlaced(s, c, v, owed);
  }

  lemma KeepsTheRest(s: State, c: Connect, v: Conn)
    requires c in s.conns && v.item == s.conns[c].item && v.closed == s.conns[c].closed
    requires v.id == s.conns[c].id || Unawaited(s.wait, c)
    requires WaitOk(s.wait, s.conns) && ItemsOk(s.lists, s.conns) && Opened(s.conns, s.table)
    ensures WaitOk(s.wait, s.conns[c := v]) && ItemsOk(s.lists, s.conns[c := v]) && Opened(s.conns[c := v], s.table)
  {
  }

  lemma BalancedLink(s: State, c: Connect, held: multiset<Connect>, owed: multiset<Connect>)
    requires Balanced(s, held, owed) && c in s.conns && s.conns[c].link > 0
    ensures Balanced(Link(s, c), held + multiset{c}, owed)
  {
    hide Wf, Exact, Placed, WaitOk, ItemsOk, Opened, Grounded, ConnsLive;
    var v := s.conns[c].(link := s.conns[c].link + 1);
    KeepsTheRest(s, c, v);
    LinkWf(s, c);
    LinkExact(s, c, held);
    UpdPlaced(s, c, v, owed);
  }

  lemma UnlinkPlaced(s: State, c: Connect, owed: multiset<Connect>)
    requires Placed(s, owed) && c in s.conns
    ensures Placed(Unlink(s, c), owed)
  {
    hide Serving, Waiting, CallersIn;
    UpdPlaced(s, c, s.conns[c].(link := s.conns[c].link - 1), owed);
  }

  lemma BalancedUnlink(s: State, c: Connect, held: multiset<Connect>, owed: multiset<Connect>)
    requires Balanced(s, held, owed) && c in s.conns && held[c] > 0
    ensures Balanced(Unlink(s, c), held - multiset{c}, owed)
  {
    hide Wf, Exact, Placed, WaitOk, ItemsOk, Opened, Grounded, ConnsLive;
    KeepsTheRest(s, c, s.conns[c].(link := s.conns[c].link - 1));
    UnlinkWf(s, c);
    UnlinkExact(s, c, held);
    UnlinkPlaced(s, c, owed);
  }

  lemma BalancedWorkerOut(s: State, q: nat, l: nat, i: nat, held: multiset<Connect>, owed: multiset<Connect>)
    requires Balanced(s, held, owed)
    requires q < |s.workers| && l < |s.workers[q]| && i < |s.workers[q][l]|
    ensures Balanced(SetWorkers(s, q, l, RemoveAt(s.workers[q][l], i)), held + multiset{s.workers[q][l][i]}, owed)
  {
    hide Wf, Exact, Placed, WaitOk, ItemsOk, Opened, Grounded, ConnsLive;
    RemoveWorkerWf(s, q, l, i);
    SamePlaced(s, SetWorkers(s, q, l, RemoveAt(s.workers[q][l], i)), owed);
    WorkerOut(s, q, l, i, held);
  }

  lemma BalancedWorkerIn(s: State, q: nat, l: nat, i: nat, w: Connect, held: multiset<Connect>, owed: multiset<Connect>)
    requires Balanced(s, held + multiset{w}, owed) && w in s.conns
    requires q < |s.workers| && l < |s.workers[q]| && i <= |s.workers[q][l]|
    ensures Balanced(SetWorkers(s, q, l, InsertAt(s.workers[q][l], i, w)), held, owed)
  {
    hide Wf, Exact, Placed, WaitOk, ItemsOk, Opened, Grounded, ConnsLive;
    InsertWorkerWf(s, q, l, i, w);
    SamePlaced(s, SetWorkers(s, q, l, InsertAt(s.workers[q][l], i, w)), owed);
    WorkerIn(s, q, l, i, w, held);
  }

  lemma BalancedMessageOut(s: State, q: nat, l: nat, i: nat, held: multiset<Connect>, owed: multiset<Connect>)
    requires Balanced(s, held, owed)
    requires q < |s.clients| && l < |s.clients[q]| && i < |s.clients[q][l]|
    ensures var c := multiset(Callers([s.clients[q][l][i]]));
      Balanced(SetClients(s, q, l, RemoveAt(s.clients[q][l], i)), held + c, owed + c)
  {
    hide Wf, Exact, Placed, WaitOk, ItemsOk, Opened, Grounded, ConnsLive;
    RemoveMessageWf(s, q, l, i);
    MessageOut(s, q, l, i, held);
    MessageOutPlaced(s, q, l, i, owed);
  }

  lemma BalancedMessageIn(s: State, q: nat, l: nat, i: nat, m: Msg, held: multiset<Connect>, owed: multiset<Connect>)
    requires Balanced(s, held + multiset(Callers([m])), owed + multiset(Callers([m])))
    requires MsgLive(m, s.conns.Keys) && CallerWaiting(s.conns, m)
    requires q < |s.clients| && l < |s.clients[q]| && i <= |s.clients[q][l]|
    ensures Balanced(SetClients(s, q, l, InsertAt(s.clients[q][l], i, m)), held, owed)
  {
    hide Wf, Exact, Placed, WaitOk, ItemsOk, Opened, Grounded, ConnsLive;
    InsertMessageWf(s, q, l, i, m);
    MessageIn(s, q, l, i, m, held);
    MessageInPlaced(s, q, l, i, m, owed);
  }

  lemma BalancedWaitIn(s: State, id: string, c: Connect, held: multiset<Connect>, owed: multiset<Connect>)
    requires Balanced(s, held + multiset{c}, owed + multiset{c}) && c in s.conns
    requires id !in s.wait && id != "" && s.conns[c].id == id
    ensures Balanced(s.(wait := s.wait[id := c]), held, owed)
  {
    hide Wf, Exact, Placed, ItemsOk, Opened, Grounded, ConnsLive;
    AddWaitWf(s, id, c);
    WaitIn(s, id, c, held);
    WaitInPlaced(s, id, c, owed);
  }

  lemma BalancedWaitOut(s: State, id: string, held: multiset<Connect>, owed: multiset<Connect>)
    requires Balanced(s, held, owed) && id in s.wait && s.wait[id] in s.conns
    ensures Balanced(s.(wait := s.wait - {id}), held + multiset{s.wait[id]}, owed + multiset{s.wait[id]})
  {
    hide Wf, Exact, Placed, ItemsOk, Opened, Grounded, ConnsLive;
    SetWaitWf(s, s.wait - {id});
    WaitOut(s, id, held);
    WaitOutPlaced(s, id, owed);
  }

  /** w gets a pointer to c, and with it the call of c if it serves without ids. */
  lemma BalancedServe(s: State, w: Connect, c: Connect, v: Conn, held: multiset<Connect>, owed: multiset<Connect>)
    requires Balanced(s, held + multiset{c}, owed + multiset{c}) && w in s.conns && c in s.conns
    requires s.conns[w].client.None? && SameWaiting(s.conns[w], v)
    requires v == s.conns[w].(client := Some(c), status := v.status, out := v.out) && v.status == WorkerWaitResult
    ensures Balanced(Upd(s, w, v), held, owed)
  {
    hide Wf, Exact, Placed, WaitOk, ItemsOk, Opened, Grounded, ConnsLive;
    KeepsTheRest(s, w, v);
    UpdWf(s, w, v) by { ConnIsLive(s, w); }
    ClientInExact(s, w, c, v, held);
    ServePlaced(s, w, c, v, owed);
  }

  lemma ClientInExact(s: State, w: Connect, c: Connect, v: Conn, held: multiset<Connect>)
    requires Exact(s, held + multiset{c}) && w in s.conns && s.conns[w].client.None?
    requires v == s.conns[w].(client := Some(c), status := v.status, out := v.out)
    ensures Exact(Upd(s, w, v), held)
  {
    hide Exact;
    ClientIn(s, w, c, held);
    assert Upd(SetClient(s, w, Some(c)), w, v).conns == Upd(s, w, v).conns;
    UpdExact(SetClient(s, w, Some(c)), w, v, held);
  }

  /** w gets a pointer to c whose call is kept elsewhere. */
  lemma BalancedPoint(s: State, w: Connect, c: Connect, held: multiset<Connect>, owed: multiset<Connect>)
    requires Balanced(s, held + multiset{c}, owed) && w in s.conns && c in s.conns
    requires s.conns[w].client.None? && s.conns[w].status != WorkerWaitResult
    ensures Balanced(SetClient(s, w, Some(c)), held, owed)
  {
    hide Wf, Exact, Placed, WaitOk, ItemsOk, Opened, Grounded, ConnsLive;
    var v := s.conns[w].(client := Some(c));
    KeepsTheRest(s, w, v);
    SetClientWf(s, w, Some(c));
    ClientIn(s, w, c, held);
    PointPlaced(s, w, v, owed);
  }

  lemma PointPlaced(s: State, w: Connect, v: Conn, owed: multiset<Connect>)
    requires Placed(s, owed) && w in s.conns && s.conns[w].status != WorkerWaitResult
    requires v == s.conns[w].(client := v.client)
    ensures Placed(Upd(s, w, v), owed)
  {
    hide Waiting, CallersIn;
    assert forall x :: Serving(s.conns[w := v], x) == Serving(s.conns, x);
    hide Serving;
  }

  /** c gets its answer, and the call in hand is over. */
  lemma BalancedRelease(s: State, c: Connect, v: Conn, held: multiset<Connect>, owed: multiset<Connect>)
    requires Balanced(s, held, owed) && c in s.conns && !s.conns[c].closed && owed[c] > 0
    requires InCall(s.conns[c]) && s.conns[c].client.None?
    requires v == s.conns[c].(status := v.status, out := v.out) && !InCall(v)
    ensures Balanced(Upd(s, c, v), held, owed - multiset{c})
  {
    hide Wf, Exact, Placed, WaitOk, ItemsOk, Opened, Grounded, ConnsLive;
    KeepsTheRest(s, c, v);
    UpdWf(s, c, v) by { ConnIsLive(s, c); }
    UpdExact(s, c, v, held);
    ReleasePlaced(s, c, v, owed);
  }

  /** The call of c, in hand, is taken by a worker. */
  lemma BalancedBusy(s: State, c: Connect, held: multiset<Connect>, owed: multiset<Connect>)
    requires Balanced(s, held, owed) && c in s.conns && !s.conns[c].closed && owed[c] > 0
    requires s.conns[c].status == ClientWaitResult
    ensures Balanced(SetStatus(s, c, Busy), held, owed)
  {
    hide Wf, Exact, Placed, WaitOk, ItemsOk, Opened, Grounded, ConnsLive;
    var v := s.conns[c].(status := Busy);
    KeepsTheRest(s, c, v);
    SetStatusWf(s, c, Busy);
    UpdExact(s, c, v, held);
    BusyPlaced(s, c, v, owed);
  }

  lemma BusyPlaced(s: State, c: Connect, v: Conn, owed: multiset<Connect>)
    requires Placed(s, owed) && c in s.conns && !s.conns[c].closed && owed[c] > 0
    requires s.conns[c].status == ClientWaitResult && v == s.conns[c].(status := Busy)
    ensures Placed(Upd(s, c, v), owed)
  {
    hide Serving, Waiting, CallersIn;
    SameServing(s.conns, c, v);
  }

  /** c starts to wait for an answer, with its call in hand. */
  lemma BalancedCall(s: State, c: Connect, held: multiset<Connect>, owed: multiset<Connect>)
    requires Balanced(s, held, owed) && c in s.conns && !s.conns[c].closed
    requires !InCall(s.conns[c]) && s.conns[c].client.None?
    ensures Balanced(SetStatus(s, c, ClientWaitResult), held, owed + multiset{c})
  {
    hide Wf, Exact, Placed, WaitOk, ItemsOk, Opened, Grounded, ConnsLive;
    var v := s.conns[c].(status := ClientWaitResult);
    KeepsTheRest(s, c, v);
    SetStatusWf(s, c, ClientWaitResult);
    UpdExact(s, c, v, held);
    WaitPlaced(s, c, v, owed);
  }

  // Worker lists

  lemma BalancedItemIn(s: State, c: Connect, q: nat)
    requires Balanced(s, multiset{c}, multiset{}) && c in s.conns && s.conns[c].item.None? && q < |s.lists|
    ensures Balanced(Upd(s, c, s.conns[c].(item := Some(q))).(lists := s.lists[q := [c] + s.lists[q]]),
                     multiset{}, multiset{})
  {
    hide Exact, Placed, WaitOk, ItemsOk, Opened;
    var v := s.conns[c].(item := Some(q));
    var t := Upd(s, c, v).(lists := s.lists[q := [c] + s.lists[q]]);
    ItemInExact(s, c, q);
    ItemInRest(s, c, q);
    UpdPlaced(s, c, v, multiset{});
    SamePlaced(Upd(s, c, v), t, multiset{});
    UpdWf(s, c, v) by { ConnIsLive(s, c); }
    SetListLive(s, q, c);
    SetListWf(Upd(s, c, v), q, [c] + s.lists[q]);
  }

  lemma SetListLive(s: State, q: nat, c: Connect)
    requires Wf(s) && q < |s.lists| && c in s.conns
    ensures forall i :: 0 <= i < |[c] + s.lists[q]| ==> ([c] + s.lists[q])[i] in s.conns
  {
    hide WorkersLive, ClientsLive, WaitLive, ConnsLive;
  }

  lemma ItemInExact(s: State, c: Connect, q: nat)
    requires Exact(s, multiset{c}) && c in s.conns && s.conns[c].item.None? && q < |s.lists|
    ensures Exact(Upd(s, c, s.conns[c].(item := Some(q))).(lists := s.lists[q := [c] + s.lists[q]]), multiset{})
  {
    hide Pointers, Exact;
    var t := Upd(s, c, s.conns[c].(item := Some(q))).(lists := s.lists[q := [c] + s.lists[q]]);
    forall x | x in s.conns ensures Pointers(t, x) == Pointers(s, x) + multiset{c}[x] {
      ItemInPointers(s, t, c, q, x);
    }
    Recounted(s, t, multiset{c}, multiset{});
  }

  lemma ItemInPointers(s: State, t: State, c: Connect, q: nat, x: Connect)
    requires c in s.conns && s.conns[c].item.None? && q < |s.lists| && x in s.conns
    requires t == Upd(s, c, s.conns[c].(item := Some(q))).(lists := s.lists[q := [c] + s.lists[q]])
    ensures Pointers(t, x) == Pointers(s, x) + multiset{c}[x]
  {
    hide Linking, Waiting, WorkersIn, CallersIn;
    SameLinking(s.conns, c, s.conns[c].(item := Some(q)));
  }

  lemma ItemInRest(s: State, c: Connect, q: nat)
    requires c in s.conns && s.conns[c].item.None? && q < |s.lists|
    requires WaitOk(s.wait, s.conns) && ItemsOk(s.lists, s.conns) && Opened(s.conns, s.table)
    ensures var conns := s.conns[c := s.conns[c].(item := Some(q))];
      WaitOk(s.wait, conns) && ItemsOk(s.lists[q := [c] + s.lists[q]], conns) && Opened(conns, s.table)
  {
    assert multiset([c] + s.lists[q]) == multiset{c} + multiset(s.lists[q]);
  }

  lemma BalancedItemOut(s: State, c: Connect)
    requires Balanced(s, multiset{}, multiset{}) && c in s.conns && s.conns[c].item.Some?
    requires s.conns[c].item.value < |s.lists|
    ensures var q := s.conns[c].item.value;
      Balanced(Upd(s, c, s.conns[c].(item := None)).(lists := s.lists[q := Without(s.lists[q], c)]),
               multiset{c}, multiset{})
  {
    hide Exact, Placed, WaitOk, ItemsOk, Opened;
    var q := s.conns[c].item.value;
    var v := s.conns[c].(item := None);
    var t := Upd(s, c, v).(lists := s.lists[q := Without(s.lists[q], c)]);
    ItemOutExact(s, c);
    ItemOutRest(s, c);
    UpdPlaced(s, c, v, multiset{});
    SamePlaced(Upd(s, c, v), t, multiset{});
    UpdWf(s, c, v) by { ConnIsLive(s, c); }
    ListLive(s, q);
    WithoutLive(s.lists[q], c, s.conns.Keys);
    SetListWf(Upd(s, c, v), q, Without(s.lists[q], c));
  }

  lemma ListLive(s: State, q: nat)
    requires Wf(s) && q < |s.lists|
    ensures forall i :: 0 <= i < |s.lists[q]| ==> s.lists[q][i] in s.conns.Keys
  {
    hide WorkersLive, ClientsLive, WaitLive, ConnsLive;
  }

  lemma ItemOutExact(s: State, c: Connect)
    requires Exact(s, multiset{}) && c in s.conns && s.conns[c].item.Some? && s.conns[c].item.value < |s.lists|
    ensures var q := s.conns[c].item.value;
      Exact(Upd(s, c, s.conns[c].(item := None)).(lists := s.lists[q := Without(s.lists[q], c)]), multiset{c})
  {
    hide Pointers, Without, Exact;
    var q := s.conns[c].item.value;
    var t := Upd(s, c, s.conns[c].(item := None)).(lists := s.lists[q := Without(s.lists[q], c)]);
    forall x | x in s.conns ensures Pointers(t, x) + multiset{c}[x] == Pointers(s, x) {
      ItemOutPointers(s, t, c, x);
    }
    Recounted(s, t, multiset{}, multiset{c});
  }

  lemma ItemOutPointers(s: State, t: State, c: Connect, x: Connect)
    requires c in s.conns && x in s.conns && s.conns[c].item.Some?
    requires t.conns == s.conns[c := s.conns[c].(item := None)]
    requires t.table == s.table && t.workers == s.workers && t.clients == s.clients && t.wait == s.wait
    ensures Pointers(t, x) + multiset{c}[x] == Pointers(s, x)
  {
    hide Linking, Waiting, WorkersIn, CallersIn;
    SameLinking(s.conns, c, s.conns[c].(item := None));
  }

  lemma ItemOutRest(s: State, c: Connect)
    requires c in s.conns && s.conns[c].item.Some? && s.conns[c].item.value < |s.lists|
    requires WaitOk(s.wait, s.conns) && ItemsOk(s.lists, s.conns) && Opened(s.conns, s.table)
    ensures var q := s.conns[c].item.value;
      var conns := s.conns[c := s.conns[c].(item := None)];
      WaitOk(s.wait, conns) && ItemsOk(s.lists[q := Without(s.lists[q], c)], conns) && Opened(conns, s.table)
  {
  }

  // Ends of service

  /** w stops serving c: the pointer and the call are in hand. */
  lemma BalancedUnserve(s: State, w: Connect, c: Connect, v: Conn, held: multiset<Connect>, owed: multiset<Connect>)
    requires Balanced(s, held, owed) && w in s.conns && s.conns[w].client == Some(c)
    requires s.conns[w].status == WorkerWaitResult
    requires v.client.None? && SameWaiting(s.conns[w], v)
    requires v.link == s.conns[w].link && v.item == s.conns[w].item && v.nloop == s.conns[w].nloop
    requires v.id == s.conns[w].id
    ensures Balanced(Upd(s, w, v), held + multiset{c}, owed + multiset{c})
  {
    hide Wf, Exact, Placed, WaitOk, ItemsOk, Opened, Grounded, ConnsLive;
    KeepsTheRest(s, w, v);
    UpdWf(s, w, v) by { ConnIsLive(s, w); }
    ClientOutExact(s, w, c, v, held);
    UnservePlaced(s, w, c, v, owed);
  }

  lemma ClientOutExact(s: State, w: Connect, c: Connect, v: Conn, held: multiset<Connect>)
    requires Exact(s, held) && w in s.conns && s.conns[w].client == Some(c) && v.client.None?
    requires v.link == s.conns[w].link && v.item == s.conns[w].item
    ensures Exact(Upd(s, w, v), held + multiset{c})
  {
    hide Exact;
    ClientOut(s, w, held);
    UpdTwice(s, w, s.conns[w].(client := None), v);
    UpdExact(SetClient(s, w, None), w, v, held + multiset{c});
  }

  /** w forgets a client whose call is kept elsewhere. */
  lemma BalancedUnpoint(s: State, w: Connect, c: Connect, v: Conn, held: multiset<Connect>, owed: multiset<Connect>)
    requires Balanced(s, held, owed) && w in s.conns && s.conns[w].client == Some(c)
    requires s.conns[w].status != WorkerWaitResult
    requires v.client.None? && SameWaiting(s.conns[w], v)
    requires v.link == s.conns[w].link && v.item == s.conns[w].item && v.nloop == s.conns[w].nloop
    requires v.id == s.conns[w].id || Unawaited(s.wait, w)
    ensures Balanced(Upd(s, w, v), held + multiset{c}, owed)
  {
    hide Wf, Exact, Placed, WaitOk, ItemsOk, Opened, Grounded, ConnsLive;
    KeepsTheRest(s, w, v);
    UpdWf(s, w, v) by { ConnIsLive(s, w); }
    ClientOutExact(s, w, c, v, held);
    UnpointPlaced(s, w, v, owed);
  }

  lemma UnpointPlaced(s: State, w: Connect, v: Conn, owed: multiset<Connect>)
    requires Placed(s, owed) && w in s.conns && s.conns[w].status != WorkerWaitResult
    requires v.client.None? && SameWaiting(s.conns[w], v)
    ensures Placed(Upd(s, w, v), owed)
  {
    hide Waiting, CallersIn;
    assert forall x :: Serving(s.conns[w := v], x) == Serving(s.conns, x);
    hide Serving;
  }

  /** c is closed and leaves the table: the table's pointer is in hand, and its own call is forgotten. */
  lemma BalancedClose(s: State, c: Connect, owed: multiset<Connect>)
    requires Balanced(s, multiset{}, owed) && c in s.conns && !s.conns[c].closed
    requires s.conns[c].client.None?
    ensures Balanced(Upd(s, c, s.conns[c].(closed := true)).(table := s.table - {c}), multiset{c}, owed)
  {
    hide Wf, Exact, Placed, ItemsOk, WaitOk, Grounded, ConnsLive;
    var v := s.conns[c].(closed := true);
    var t := Upd(s, c, v).(table := s.table - {c});
    KeepsItems(s, c, v);
    KeepsWait(s, c, v);
    UpdWf(s, c, v) by { ConnIsLive(s, c); }
    TableWf(Upd(s, c, v), t.table);
    CloseExact(s, c);
    UpdPlaced(s, c, v, owed);
    SamePlaced(Upd(s, c, v), t, owed);
  }

  lemma KeepsWait(s: State, c: Connect, v: Conn)
    requires WaitOk(s.wait, s.conns) && c in s.conns && v.id == s.conns[c].id
    ensures WaitOk(s.wait, s.conns[c := v])
  {
  }

  lemma KeepsItems(s: State, c: Connect, v: Conn)
    requires ItemsOk(s.lists, s.conns) && c in s.conns && v.item == s.conns[c].item
    ensures ItemsOk(s.lists, s.conns[c := v])
  {
  }

  lemma TableWf(s: State, table: set<Connect>)
    requires Wf(s) && table <= s.table
    ensures Wf(s.(table := table))
  {
    hide WorkersLive, ClientsLive, ListsLive, WaitLive, ConnsLive;
  }

  lemma CloseExact(s: State, c: Connect)
    requires Exact(s, multiset{}) && c in s.conns && c in s.table
    ensures Exact(Upd(s, c, s.conns[c].(closed := true)).(table := s.table - {c}), multiset{c})
  {
    hide Linking, Waiting, WorkersIn, CallersIn, Exact;
    var v := s.conns[c].(closed := true);
    SameLinking(s.conns, c, v);
    Recounted(s, Upd(s, c, v).(table := s.table - {c}), multiset{}, multiset{c});
  }

  /** What a closed connection waited for is nobody's business. */
  lemma BalancedUpdClosed(s: State, c: Connect, v: Conn, held: multiset<Connect>, owed: multiset<Connect>)
    requires Balanced(s, held, owed) && c in s.conns && s.conns[c].closed && v.closed
    requires v.link == s.conns[c].link && v.client == s.conns[c].client && v.item == s.conns[c].item
    requires v.nloop == s.conns[c].nloop && v.id == s.conns[c].id && SameService(s.conns[c], v)
    ensures Balanced(Upd(s, c, v), held, owed)
  {
    hide Wf, Exact, Placed, WaitOk, ItemsOk, Opened, Grounded, ConnsLive;
    KeepsTheRest(s, c, v);
    UpdWf(s, c, v) by { ConnIsLive(s, c); }
    UpdExact(s, c, v, held);
    UpdPlaced(s, c, v, owed);
  }
}
