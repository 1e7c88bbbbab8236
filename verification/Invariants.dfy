/** The invariant of each connection and of the broker, and the steps all handlers share. */
module Invariants {
  import opened Connections
  import opened Deques
  import opened BrokerState
  import opened Common
  import opened References
  import opened Ledger

  /** Data is only looked at while the connection is in one of these states. */
  predicate Listens(v: Conn) {
    v.status == Net || (v.status == WorkerWaitResult && v.noid) || (v.status == WorkerModeAsync && v.workerMode)
  }

  /** Between handlers: a worker without ids has a client exactly while it owes a result. */
  predicate Paired(v: Conn) {
    && (v.client.Some? ==> v.failOnDisconnect && v.status == (if v.noid then WorkerWaitResult else Net))
    && (v.status == WorkerWaitResult ==> v.noid && v.client.Some?)
    && (v.noid ==> v.failOnDisconnect)
    && (v.workerMode && !v.spoilt ==>
          v.noid && v.name != "" && v.status in {WorkerWaitJob, WorkerWaitResult, WorkerModeAsync})
    && (v.spoilt ==> v.workerMode && v.status == Net && v.client.None? && !v.started)
    && (v.status == WorkerModeAsync ==> v.workerMode)
    && (InCall(v) ==> !v.failOnDisconnect)
    && (v.started ==> Listens(v))
    && (v.started && v.status == Net ==> !v.failOnDisconnect)
  }

  /** Every call but the one that is still waiting has been closed by exactly one reply. */
  predicate Settled(v: Conn) {
    v.calls == Closed(v.out) + (if InCall(v) then 1 else 0)
  }

  predicate ConnOk(v: Conn) {
    && v.status != Migration
    && (v.closed ==> v.client.None? && v.item.None?)
    && (!v.closed ==> Paired(v) && Settled(v))
  }

  /** A worker that a handler is about to give a job or to park. */
  predicate Idle(v: Conn) {
    && !v.closed && !v.started && !v.spoilt && v.client.None? && v.status !in {ClientWaitResult, Busy, Migration}
    && (v.noid ==> v.failOnDisconnect)
    && (v.workerMode ==> v.noid && v.name != "")
    && (v.status == WorkerWaitResult || v.status == WorkerModeAsync ==> v.noid)
    && Settled(v)
  }

  /** All connections but the one being served are in order. */
  ghost predicate SaneBut(s: State, c: Connect) {
    && Balanced(s, multiset{}, multiset{})
    && c in s.conns
    && (forall x :: x in s.conns && x != c ==> ConnOk(s.conns[x]))
  }

  ghost predicate Sane(s: State) {
    && Balanced(s, multiset{}, multiset{})
    && (forall x :: x in s.conns ==> ConnOk(s.conns[x]))
  }

  /** A connection apart from its link count. */
  function Core(v: Conn): Conn {
    v.(link := 0)
  }

  /** Only link counts differ. */
  predicate OnlyLinks(s: State, t: State) {
    && s.conns.Keys == t.conns.Keys
    && (forall x :: x in s.conns ==> Core(t.conns[x]) == Core(s.conns[x]))
  }

  lemma UpdOnly(conns: map<Connect, Conn>, c: Connect, v: Conn)
    requires c in conns && Core(v) == Core(conns[c])
    ensures conns.Keys == conns[c := v].Keys
    ensures forall x :: x in conns ==> Core(conns[c := v][x]) == Core(conns[x])
  {
  }

  lemma SameButLink(v: Conn, link: int)
    ensures Core(v.(link := link)) == Core(v)
  {
  }

  lemma UnlinkChanges(s: State, c: Connect)
    requires c in s.conns
    ensures Unlink(s, c).conns == s.conns[c := s.conns[c].(link := s.conns[c].link - 1)]
  {
  }

  lemma UnlinkOnly(s: State, c: Connect)
    requires c in s.conns
    ensures OnlyLinks(s, Unlink(s, c))
  {
    var v := s.conns[c].(link := s.conns[c].link - 1);
    SameButLink(s.conns[c], v.link);
    hide Core;
    UpdOnly(s.conns, c, v);
    UnlinkChanges(s, c);
    hide Unlink;
  }

  lemma EraseWorkerSane(s: State, q: nat, l: nat, i: nat, c: Connect)
    requires SaneBut(s, c)
    requires q < |s.workers| && l < |s.workers[q]| && i < |s.workers[q][l]|
    ensures s.workers[q][l][i] in s.conns
    ensures SaneBut(EraseWorker(s, q, l, i), c) && OnlyLinks(s, EraseWorker(s, q, l, i))
  {
    var w := s.workers[q][l][i];
    var t := SetWorkers(s, q, l, RemoveAt(s.workers[q][l], i));
    EntryLive(s, q, l, i);
    UnlinkOnly(t, w);
    hide Balanced, ConnOk, Unlink;
    BalancedWorkerOut(s, q, l, i, multiset{}, multiset{});
    BalancedUnlink(t, w, multiset{} + multiset{w}, multiset{});
    assert multiset{} + multiset{w} - multiset{w} == multiset{};
    LinksOk(t, Unlink(t, w), c);
  }

  lemma EntryLive(s: State, q: nat, l: nat, i: nat)
    requires Balanced(s, multiset{}, multiset{})
    requires q < |s.workers| && l < |s.workers[q]| && i < |s.workers[q][l]|
    ensures s.workers[q][l][i] in s.conns
  {
  }

  lemma LinksOk(s: State, t: State, c: Connect)
    requires OnlyLinks(s, t) && forall x :: x in s.conns && x != c ==> ConnOk(s.conns[x])
    ensures forall x :: x in t.conns && x != c ==> ConnOk(t.conns[x])
  {
  }

  /** A message of a client that has gone is dropped, and with it the pointer to the client. */
  lemma EraseStaleSane(s: State, q: nat, l: nat, i: nat, c: Connect)
    requires SaneBut(s, c)
    requires q < |s.clients| && l < |s.clients[q]| && i < |s.clients[q][l]|
    requires var m := s.clients[q][l][i]; m.conn.Some? && m.conn.value in s.conns && s.conns[m.conn.value].closed
    ensures SaneBut(EraseMessage(s, q, l, i), c) && OnlyLinks(s, EraseMessage(s, q, l, i))
  {
    var x := s.clients[q][l][i].conn.value;
    var t := SetClients(s, q, l, RemoveAt(s.clients[q][l], i));
    UnlinkOnly(t, x);
    hide ConnOk;
    MessageFreed(s, q, l, i);
    ForgiveClosed(Unlink(t, x), x);
    hide Balanced, Unlink;
    LinksOk(t, Unlink(t, x), c);
  }

  /** Erasing the message of a client puts its call in hand. */
  lemma MessageFreed(s: State, q: nat, l: nat, i: nat)
    requires Balanced(s, multiset{}, multiset{})
    requires q < |s.clients| && l < |s.clients[q]| && i < |s.clients[q][l]|
    requires s.clients[q][l][i].conn.Some? && s.clients[q][l][i].conn.value in s.conns
    ensures Balanced(EraseMessage(s, q, l, i), multiset{}, multiset{s.clients[q][l][i].conn.value})
  {
    var x := s.clients[q][l][i].conn.value;
    var t := SetClients(s, q, l, RemoveAt(s.clients[q][l], i));
    OneCaller(s.clients[q][l][i]);
    hide Balanced, Unlink;
    BalancedMessageOut(s, q, l, i, multiset{}, multiset{});
    var one := multiset([x]);
    assert one == multiset{x} && multiset{} + one == one && one - multiset{x} == multiset{};
    BalancedUnlink(t, x, one, one);
  }

  lemma OneCaller(m: Msg)
    ensures Callers([m]) == (if m.conn.Some? then [m.conn.value] else [])
  {
    assert [m][1..] == [];
  }

  /** What is owed to a closed client is owed to nobody. */
  lemma ForgiveClosed(s: State, x: Connect)
    requires Balanced(s, multiset{}, multiset{x}) && x in s.conns && s.conns[x].closed
    ensures Balanced(s, multiset{}, multiset{})
  {
    hide Wf, Exact, WaitOk, ItemsOk, Opened, Grounded, ConnsLive;
  }

  /** A message that points at an open connection means that this connection waits, and nowhere else. */
  lemma CallerWaits(s: State, q: nat, l: nat, i: nat)
    requires Balanced(s, multiset{}, multiset{})
    requires q < |s.clients| && l < |s.clients[q]| && i < |s.clients[q][l]|
    requires s.clients[q][l][i].conn.Some? && s.clients[q][l][i].conn.value in s.conns
    requires !s.conns[s.clients[q][l][i].conn.value].closed
    ensures var c := s.clients[q][l][i].conn.value;
      && s.conns[c].status == ClientWaitResult
      && Unawaited(s.wait, c)
  {
    var m := s.clients[q][l][i];
    var c := m.conn.value;
    CallerCounted(s.clients, q, l, i);
    hide Wf, Exact, ItemsOk, Opened, WaitOk, Grounded, ConnsLive;
    forall id | id in s.wait ensures s.wait[id] != c {
      WaitingCounted(s.wait, id);
    }
  }

  lemma CallerCounted(ds: Deques<Msg>, q: nat, l: nat, i: nat)
    requires q < |ds| && l < |ds[q]| && i < |ds[q][l]| && ds[q][l][i].conn.Some?
    ensures CallersIn(ds)[ds[q][l][i].conn.value] >= 1
  {
    CallersRemoved(ds, q, l, i);
    OneCaller(ds[q][l][i]);
  }

  lemma WaitingCounted(wait: map<string, Connect>, id: string)
    requires id in wait
    ensures |Waiting(wait, wait[id])| >= 1
  {
    assert id in Waiting(wait, wait[id]);
  }

  /** If the two connections a handler touched are in order, all are. */
  lemma TwoTouched(s: State, t: State, w: Connect, vw: Conn, c: Connect, vc: Conn)
    requires SaneBut(s, c) && Balanced(t, multiset{}, multiset{})
    requires t.conns == s.conns[w := vw][c := vc]
    requires ConnOk(vw) && ConnOk(vc)
    ensures Sane(t)
  {
    hide Balanced, ConnOk;
  }

  lemma SaneOn(s: State, c: Connect)
    requires Sane(s) && c in s.conns
    ensures SaneBut(s, c) && Balanced(s, multiset{}, multiset{}) && ConnOk(s.conns[c])
  {
    hide Balanced, ConnOk;
  }

  lemma OneTouched(s: State, t: State, c: Connect, vc: Conn)
    requires SaneBut(s, c) && Balanced(t, multiset{}, multiset{})
    requires t.conns == s.conns[c := vc]
    requires ConnOk(vc)
    ensures Sane(t)
  {
    hide Balanced, ConnOk;
  }

  lemma BalancedHistory(s: State, stamp: nat, accepted: multiset<Job>, handed: multiset<Job>)
    requires Balanced(s, multiset{}, multiset{})
    ensures Balanced(s.(stamp := stamp, accepted := accepted, handed := handed), multiset{}, multiset{})
  {
    HistoryWf(s, stamp, accepted, handed);
    var t := s.(stamp := stamp, accepted := accepted, handed := handed);
    SamePlaced(s, t, multiset{});
    hide Wf, Placed, WaitOk, ItemsOk, Opened, Grounded, ConnsLive;
    hide WorkersIn, CallersIn, Waiting, Linking;
  }

  /** An open connection that does not wait is in none of the places where calls are kept. */
  lemma NotWaiting(s: State, c: Connect)
    requires Balanced(s, multiset{}, multiset{}) && c in s.conns
    requires !s.conns[c].closed && !InCall(s.conns[c])
    ensures Unawaited(s.wait, c)
  {
    hide Wf, Exact, ItemsOk, Opened, WaitOk, Grounded, ConnsLive;
    forall id | id in s.wait ensures s.wait[id] != c {
      WaitingCounted(s.wait, id);
    }
  }

  lemma BalancedIndex(s: State, n: nat)
    requires Balanced(s, multiset{}, multiset{})
    ensures Balanced(s.(idIndex := n), multiset{}, multiset{})
  {
    var t := s.(idIndex := n);
    hide Wf, Placed, WaitOk, ItemsOk, Opened, Grounded, ConnsLive;
    IndexWf(s, n);
    SamePlaced(s, t, multiset{});
    hide WorkersIn, CallersIn, Waiting, Linking;
  }

  lemma ResolveIdBalanced(s: State, c: Connect, rnd: Entropy)
    requires Balanced(s, multiset{}, multiset{}) && c in s.conns && Unawaited(s.wait, c)
    ensures Balanced(ResolveId(s, c, rnd), multiset{}, multiset{})
  {
    hide Balanced, ResolvedId;
    var v := s.conns[c].(id := ResolvedId(s, c, rnd));
    BalancedUpd(s, c, v, multiset{}, multiset{});
    BalancedIndex(Upd(s, c, v), ResolveId(s, c, rnd).idIndex);
  }

  lemma RenamedOk(v: Conn, id: string)
    requires ConnOk(v)
    ensures ConnOk(v.(id := id))
  {
  }

  lemma ResolveIdSane(s: State, c: Connect, rnd: Entropy, x: Connect)
    requires SaneBut(s, x) && c in s.conns && Unawaited(s.wait, c)
    ensures SaneBut(ResolveId(s, c, rnd), x)
    ensures ResolveId(s, c, rnd).conns == s.conns[c := s.conns[c].(id := ResolvedId(s, c, rnd))]
  {
    hide Balanced, ConnOk, ResolvedId;
    ResolveIdBalanced(s, c, rnd);
    if c != x {
      RenamedOk(s.conns[c], ResolvedId(s, c, rnd));
    }
  }

  lemma RelinkedOk(v: Conn, link: int)
    requires ConnOk(v)
    ensures ConnOk(v.(link := link))
  {
  }
}
