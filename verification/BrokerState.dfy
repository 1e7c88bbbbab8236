/**
 The broker state and the small updates that handlers are made of. A connection is
 identified by its object; everything the server knows about it is in `conns`.
 `fault` is set wherever the server throws.
 */
module BrokerState {
  import opened Connections
  import opened Deques
  import opened Names

  /** A queued call: `conn` is the waiting client, or None for an asynchronous job. */
  datatype Msg = Msg(stamp: nat, priority: int, required: string, conn: Option<Connect>, name: string, body: string)

  datatype State = State(
    threads: nat,
    conns: map<Connect, Conn>,
    table: set<Connect>,
    names: Names,
    workers: Deques<Connect>,
    clients: Deques<Msg>,
    lists: seq<seq<Connect>>,
    wait: map<string, Connect>,
    dead: seq<Connect>,
    stamp: nat,
    idIndex: nat,
    accepted: multiset<Job>,
    handed: multiset<Job>,
    buried: multiset<Job>,   // the jobs on the send buffers of deleted connections
    fault: bool)

  function Start(threads: nat): State {
    State(threads, map[], {}, NO_NAMES, [], [], [], map[], [], 0, 0, multiset{}, multiset{}, multiset{}, false)
  }

  /** Every queue has one deque of each kind per loop and one worker list. */
  ghost predicate Shape(s: State) {
    && s.threads > 0
    && |s.workers| == |s.clients| == |s.lists|
    && (forall q :: 0 <= q < |s.workers| ==> |s.workers[q]| == s.threads)
    && (forall q :: 0 <= q < |s.clients| ==> |s.clients[q]| == s.threads)
    && (forall k :: k in s.names.exact ==> s.names.exact[k] <= |s.lists|)
    && (forall k :: k in s.names.wild ==> s.names.wild[k] <= |s.lists|)
  }

  predicate WorkersLive(workers: Deques<Connect>, live: set<Connect>) {
    forall q, l, i :: 0 <= q < |workers| && 0 <= l < |workers[q]| && 0 <= i < |workers[q][l]| ==>
      workers[q][l][i] in live
  }

  predicate ClientsLive(clients: Deques<Msg>, live: set<Connect>) {
    forall q, l, i :: 0 <= q < |clients| && 0 <= l < |clients[q]| && 0 <= i < |clients[q][l]| ==>
      MsgLive(clients[q][l][i], live)
  }

  predicate MsgLive(m: Msg, live: set<Connect>) {
    m.conn.Some? ==> m.conn.value in live
  }

  predicate ListsLive(lists: seq<seq<Connect>>, live: set<Connect>) {
    forall q, i :: 0 <= q < |lists| && 0 <= i < |lists[q]| ==> lists[q][i] in live
  }

  predicate WaitLive(wait: map<string, Connect>, live: set<Connect>) {
    forall id :: id in wait ==> wait[id] in live
  }

  predicate ConnLive(v: Conn, live: set<Connect>, queues: nat, threads: nat) {
    && (v.client.Some? ==> v.client.value in live)
    && (v.item.Some? ==> v.item.value < queues)
    && v.nloop < threads
  }

  predicate ConnsLive(conns: map<Connect, Conn>, queues: nat, threads: nat) {
    forall c :: c in conns ==> ConnLive(conns[c], conns.Keys, queues, threads)
  }

  /** No pointer dangles. */
  ghost predicate Grounded(s: State) {
    && s.table <= s.conns.Keys
    && WorkersLive(s.workers, s.conns.Keys)
    && ClientsLive(s.clients, s.conns.Keys)
    && ListsLive(s.lists, s.conns.Keys)
    && WaitLive(s.wait, s.conns.Keys)
    && ConnsLive(s.conns, |s.lists|, s.threads)
    && (forall c :: c in s.dead ==> c in s.conns)
  }

  ghost predicate Wf(s: State) {
    Shape(s) && Grounded(s)
  }

  // Updates of one connection.

  function Upd(s: State, c: Connect, v: Conn): State {
    s.(conns := s.conns[c := v])
  }

  function Upd2(s: State, a: Connect, va: Conn, b: Connect, vb: Conn): State {
    Upd(Upd(s, a, va), b, vb)
  }

  lemma Upd2Swap(s: State, a: Connect, va: Conn, b: Connect, vb: Conn)
    requires a != b
    ensures Upd2(s, a, va, b, vb) == Upd2(s, b, vb, a, va)
  {
    assert s.conns[a := va][b := vb] == s.conns[b := vb][a := va];
  }

  lemma UpdTwice(s: State, c: Connect, v: Conn, u: Conn)
    ensures Upd(Upd(s, c, v), c, u) == Upd(s, c, u)
  {
    assert s.conns[c := v][c := u] == s.conns[c := u];
  }

  function SetStatus(s: State, c: Connect, status: Status): State
    requires c in s.conns
  {
    Upd(s, c, s.conns[c].(status := status))
  }

  function Link(s: State, c: Connect): State
    requires c in s.conns
  {
    Upd(s, c, s.conns[c].(link := s.conns[c].link + 1))
  }

  function Unlink(s: State, c: Connect): State
    requires c in s.conns
  {
    var n := s.conns[c].link - 1;
    var t := Upd(s, c, s.conns[c].(link := n));
    if n == 0 then t.(dead := t.dead + [c])
    else if n < 0 then t.(fault := true)
    else t
  }

  function Send(s: State, c: Connect, r: Reply): State
    requires c in s.conns
  {
    if s.conns[c].closed then s.(fault := true)
    else Upd(s, c, s.conns[c].(out := s.conns[c].out + [r]))
  }

  function SetClient(s: State, w: Connect, client: Option<Connect>): State
    requires w in s.conns
  {
    Upd(s, w, s.conns[w].(client := client))
  }

  // Updates of the containers.

  function AddWait(s: State, id: string, c: Connect): State {
    s.(wait := s.wait[id := c])
  }

  function SetWorkers(s: State, q: nat, l: nat, d: seq<Connect>): State
    requires q < |s.workers| && l < |s.workers[q]|
  {
    s.(workers := SetAt(s.workers, q, l, d))
  }

  function SetClients(s: State, q: nat, l: nat, d: seq<Msg>): State
    requires q < |s.clients| && l < |s.clients[q]|
  {
    s.(clients := SetAt(s.clients, q, l, d))
  }

  function EraseWorker(s: State, q: nat, l: nat, i: nat): State
    requires q < |s.workers| && l < |s.workers[q]| && i < |s.workers[q][l]|
    requires s.workers[q][l][i] in s.conns
  {
    Unlink(SetWorkers(s, q, l, RemoveAt(s.workers[q][l], i)), s.workers[q][l][i])
  }

  function EraseMessage(s: State, q: nat, l: nat, i: nat): State
    requires q < |s.clients| && l < |s.clients[q]| && i < |s.clients[q][l]|
    requires s.clients[q][l][i].conn.Some? ==> s.clients[q][l][i].conn.value in s.conns
  {
    var m := s.clients[q][l][i];
    var t := SetClients(s, q, l, RemoveAt(s.clients[q][l], i));
    if m.conn.Some? then Unlink(t, m.conn.value) else t
  }

  function PushItem(s: State, c: Connect, q: nat): State
    requires c in s.conns && q < |s.lists|
  {
    var t := Link(s, c);
    Upd(t, c, t.conns[c].(item := Some(q))).(lists := t.lists[q := [c] + t.lists[q]])
  }

  function PopItem(s: State, c: Connect): State
    requires c in s.conns
    requires s.conns[c].item.Some? ==> s.conns[c].item.value < |s.lists|
  {
    if s.conns[c].item.None? then s
    else
      var q := s.conns[c].item.value;
      Unlink(Upd(s, c, s.conns[c].(item := None)).(lists := s.lists[q := Without(s.lists[q], c)]), c)
  }

  // Well-formedness survives every update.

  lemma UpdWf(s: State, c: Connect, v: Conn)
    requires Wf(s) && c in s.conns && ConnLive(v, s.conns.Keys, |s.lists|, s.threads)
    ensures Wf(Upd(s, c, v)) && Upd(s, c, v).conns.Keys == s.conns.Keys
  {
    hide WorkersLive, ClientsLive, ListsLive, WaitLive;
    assert Upd(s, c, v).conns.Keys == s.conns.Keys;
  }

  lemma ConnIsLive(s: State, c: Connect)
    requires Wf(s) && c in s.conns
    ensures ConnLive(s.conns[c], s.conns.Keys, |s.lists|, s.threads)
  {
  }

  lemma Upd2Wf(s: State, a: Connect, va: Conn, b: Connect, vb: Conn)
    requires Wf(s) && a in s.conns && b in s.conns
    requires ConnLive(va, s.conns.Keys, |s.lists|, s.threads) && ConnLive(vb, s.conns.Keys, |s.lists|, s.threads)
    ensures SameFrame(s, Upd2(s, a, va, b, vb))
  {
    hide WorkersLive, ClientsLive, ListsLive, WaitLive, ConnsLive;
    UpdWf(s, a, va);
    UpdWf(Upd(s, a, va), b, vb);
  }

  lemma UnlinkWf(s: State, c: Connect)
    requires Wf(s) && c in s.conns
    ensures SameFrame(s, Unlink(s, c))
  {
    hide Wf, Shape, Grounded, ConnsLive;
    ConnIsLive(s, c);
    var t := Upd(s, c, s.conns[c].(link := s.conns[c].link - 1));
    UpdWf(s, c, t.conns[c]);
    DeadWf(t, c);
    FaultyWf(t);
  }

  lemma DeadWf(s: State, c: Connect)
    requires Wf(s) && c in s.conns
    ensures Wf(s.(dead := s.dead + [c]))
  {
    hide WorkersLive, ClientsLive, ListsLive, WaitLive, ConnsLive;
  }

  lemma FaultyWf(s: State)
    requires Wf(s)
    ensures Wf(s.(fault := true))
  {
    hide WorkersLive, ClientsLive, ListsLive, WaitLive, ConnsLive;
  }

  lemma SetWorkersWf(s: State, q: nat, l: nat, d: seq<Connect>)
    requires Wf(s) && q < |s.workers| && l < |s.workers[q]|
    requires forall i :: 0 <= i < |d| ==> d[i] in s.conns
    ensures Wf(SetWorkers(s, q, l, d))
  {
    hide ClientsLive, ListsLive, WaitLive, ConnsLive;
  }

  lemma SetClientsWf(s: State, q: nat, l: nat, d: seq<Msg>)
    requires Wf(s) && q < |s.clients| && l < |s.clients[q]|
    requires forall i :: 0 <= i < |d| ==> MsgLive(d[i], s.conns.Keys)
    ensures Wf(SetClients(s, q, l, d))
  {
    hide WorkersLive, ListsLive, WaitLive, ConnsLive, MsgLive;
  }

  lemma RemoveWorkerWf(s: State, q: nat, l: nat, i: nat)
    requires Wf(s) && q < |s.workers| && l < |s.workers[q]| && i < |s.workers[q][l]|
    ensures Wf(SetWorkers(s, q, l, RemoveAt(s.workers[q][l], i)))
    ensures s.workers[q][l][i] in s.conns
  {
    SetWorkersWf(s, q, l, RemoveAt(s.workers[q][l], i));
  }

  lemma InsertWorkerWf(s: State, q: nat, l: nat, i: nat, w: Connect)
    requires Wf(s) && q < |s.workers| && l < |s.workers[q]| && i <= |s.workers[q][l]| && w in s.conns
    ensures Wf(SetWorkers(s, q, l, InsertAt(s.workers[q][l], i, w)))
  {
    SetWorkersWf(s, q, l, InsertAt(s.workers[q][l], i, w));
  }

  lemma RemoveMessageWf(s: State, q: nat, l: nat, i: nat)
    requires Wf(s) && q < |s.clients| && l < |s.clients[q]| && i < |s.clients[q][l]|
    ensures Wf(SetClients(s, q, l, RemoveAt(s.clients[q][l], i)))
    ensures MsgLive(s.clients[q][l][i], s.conns.Keys)
  {
    SetClientsWf(s, q, l, RemoveAt(s.clients[q][l], i));
  }

  lemma InsertMessageWf(s: State, q: nat, l: nat, i: nat, m: Msg)
    requires Wf(s) && q < |s.clients| && l < |s.clients[q]| && i <= |s.clients[q][l]| && MsgLive(m, s.conns.Keys)
    ensures Wf(SetClients(s, q, l, InsertAt(s.clients[q][l], i, m)))
  {
    SetClientsWf(s, q, l, InsertAt(s.clients[q][l], i, m));
  }

  lemma EraseWorkerWf(s: State, q: nat, l: nat, i: nat)
    requires Wf(s) && q < |s.workers| && l < |s.workers[q]| && i < |s.workers[q][l]|
    ensures Wf(EraseWorker(s, q, l, i)) && EraseWorker(s, q, l, i).conns.Keys == s.conns.Keys
  {
    hide ClientsLive, ListsLive, WaitLive, ConnsLive;
    SetWorkersWf(s, q, l, RemoveAt(s.workers[q][l], i));
    UnlinkWf(SetWorkers(s, q, l, RemoveAt(s.workers[q][l], i)), s.workers[q][l][i]);
  }

  lemma ErasedWorkers(s: State, q: nat, l: nat, i: nat)
    requires q < |s.workers| && l < |s.workers[q]| && i < |s.workers[q][l]| && s.workers[q][l][i] in s.conns
    ensures EraseWorker(s, q, l, i).workers == SetAt(s.workers, q, l, RemoveAt(s.workers[q][l], i))
    ensures EraseWorker(s, q, l, i).threads == s.threads && EraseWorker(s, q, l, i).lists == s.lists
  {
    hide SetAt, RemoveAt;
  }

  lemma EraseMessageWf(s: State, q: nat, l: nat, i: nat)
    requires Wf(s) && q < |s.clients| && l < |s.clients[q]| && i < |s.clients[q][l]|
    ensures Wf(EraseMessage(s, q, l, i)) && EraseMessage(s, q, l, i).conns.Keys == s.conns.Keys
  {
    hide WorkersLive, ListsLive, WaitLive, ConnsLive;
    SetClientsWf(s, q, l, RemoveAt(s.clients[q][l], i));
    if s.clients[q][l][i].conn.Some? {
      UnlinkWf(SetClients(s, q, l, RemoveAt(s.clients[q][l], i)), s.clients[q][l][i].conn.value);
    }
  }

  /** What every handler leaves alone once the queue is open. */
  ghost predicate SameFrame(s: State, t: State) {
    && Wf(t)
    && t.conns.Keys == s.conns.Keys && t.threads == s.threads && |t.lists| == |s.lists|
  }

  lemma SendWf(s: State, c: Connect, r: Reply)
    requires Wf(s) && c in s.conns
    ensures SameFrame(s, Send(s, c, r))
  {
    hide WorkersLive, ClientsLive, ListsLive, WaitLive;
    UpdWf(s, c, s.conns[c].(out := s.conns[c].out + [r]));
  }

  lemma SetStatusWf(s: State, c: Connect, status: Status)
    requires Wf(s) && c in s.conns
    ensures SameFrame(s, SetStatus(s, c, status))
  {
    hide WorkersLive, ClientsLive, ListsLive, WaitLive;
    UpdWf(s, c, s.conns[c].(status := status));
  }

  lemma LinkWf(s: State, c: Connect)
    requires Wf(s) && c in s.conns
    ensures SameFrame(s, Link(s, c))
  {
    hide WorkersLive, ClientsLive, ListsLive, WaitLive;
    UpdWf(s, c, s.conns[c].(link := s.conns[c].link + 1));
  }

  lemma SetClientWf(s: State, w: Connect, client: Option<Connect>)
    requires Wf(s) && w in s.conns && (client.Some? ==> client.value in s.conns)
    ensures SameFrame(s, SetClient(s, w, client))
  {
    hide WorkersLive, ClientsLive, ListsLive, WaitLive;
    UpdWf(s, w, s.conns[w].(client := client));
  }

  lemma SetWaitWf(s: State, wait: map<string, Connect>)
    requires Wf(s) && WaitLive(wait, s.conns.Keys)
    ensures SameFrame(s, s.(wait := wait))
  {
    hide WorkersLive, ClientsLive, ListsLive, WaitLive, ConnsLive;
  }

  lemma SetListWf(s: State, q: nat, d: seq<Connect>)
    requires Wf(s) && q < |s.lists| && forall i :: 0 <= i < |d| ==> d[i] in s.conns
    ensures SameFrame(s, s.(lists := s.lists[q := d]))
  {
    hide WorkersLive, ClientsLive, WaitLive, ConnsLive;
  }

  lemma HistoryWf(s: State, stamp: nat, accepted: multiset<Job>, handed: multiset<Job>)
    requires Wf(s)
    ensures SameFrame(s, s.(stamp := stamp, accepted := accepted, handed := handed))
  {
    hide WorkersLive, ClientsLive, ListsLive, WaitLive, ConnsLive;
  }

  lemma AddWaitWf(s: State, id: string, c: Connect)
    requires Wf(s) && c in s.conns
    ensures SameFrame(s, s.(wait := s.wait[id := c]))
  {
    hide WorkersLive, ClientsLive, ListsLive, ConnsLive;
  }

  lemma PushItemWf(s: State, c: Connect, q: nat)
    requires Wf(s) && c in s.conns && q < |s.lists|
    ensures SameFrame(s, PushItem(s, c, q))
  {
    hide WorkersLive, ClientsLive, WaitLive;
    LinkWf(s, c);
    var t := Link(s, c);
    UpdWf(t, c, t.conns[c].(item := Some(q)));
    var u := Upd(t, c, t.conns[c].(item := Some(q)));
    SetListWf(u, q, [c] + u.lists[q]);
  }

  lemma ListIsLive(s: State, q: nat)
    requires Wf(s) && q < |s.lists|
    ensures forall i :: 0 <= i < |s.lists[q]| ==> s.lists[q][i] in s.conns.Keys
  {
    hide WorkersLive, ClientsLive, WaitLive, ConnsLive;
  }

  lemma PopItemWf(s: State, c: Connect)
    requires Wf(s) && c in s.conns
    ensures SameFrame(s, PopItem(s, c))
  {
    hide Wf, Shape, Grounded, ConnsLive, Without, Unlink;
    ConnIsLive(s, c);
    if s.conns[c].item.Some? {
      var q := s.conns[c].item.value;
      ListIsLive(s, q);
      WithoutLive(s.lists[q], c, s.conns.Keys);
      UpdWf(s, c, s.conns[c].(item := None));
      var a := Upd(s, c, s.conns[c].(item := None));
      SetListWf(a, q, Without(s.lists[q], c));
      UnlinkWf(a.(lists := s.lists[q := Without(s.lists[q], c)]), c);
    }
  }

  lemma {:induction false} WithoutLive(cs: seq<Connect>, c: Connect, live: set<Connect>)
    requires forall i :: 0 <= i < |cs| ==> cs[i] in live
    ensures forall i :: 0 <= i < |Without(cs, c)| ==> Without(cs, c)[i] in live
  {
    if cs != [] {
      WithoutLive(cs[1..], c, live);
    }
  }
}
