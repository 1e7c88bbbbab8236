/** Accepting connections and freeing dead ones keep the broker sane; so does every run. */
module LifeProofs {
  import opened Connections
  import opened Deques
  import opened Names
  import opened BrokerState
  import opened Common
  import opened References
  import opened Ledger
  import opened Invariants
  import opened Sessions
  import opened SessionProofs
  import opened RequestProofs

  // Pointers lead to live connections only.

  lemma WorkersInLive(workers: Deques<Connect>, live: set<Connect>, c: Connect)
    requires WorkersLive(workers, live) && c !in live
    ensures WorkersIn(workers)[c] == 0
  {
    FlatLive(workers, live);
    assert c !in Flat(workers);
  }

  lemma {:induction false} CallersLive(ms: seq<Msg>, live: set<Connect>, c: Connect)
    requires (forall i :: 0 <= i < |ms| ==> MsgLive(ms[i], live)) && c !in live
    ensures multiset(Callers(ms))[c] == 0
  {
    if ms != [] {
      CallersLive(ms[1..], live, c);
      assert Callers(ms) == Callers([ms[0]]) + Callers(ms[1..]) by { OneCaller(ms[0]); }
      OneCaller(ms[0]);
    }
  }

  lemma {:induction false} JoinMsgsLive(ss: seq<seq<Msg>>, live: set<Connect>)
    requires forall l, i :: 0 <= l < |ss| && 0 <= i < |ss[l]| ==> MsgLive(ss[l][i], live)
    ensures forall i :: 0 <= i < |Join(ss)| ==> MsgLive(Join(ss)[i], live)
  {
    hide MsgLive;
    if ss != [] {
      JoinMsgsLive(ss[1..], live);
    }
  }

  lemma {:induction false} FlatMsgsLive(ds: Deques<Msg>, live: set<Connect>)
    requires ClientsLive(ds, live)
    ensures forall i :: 0 <= i < |Flat(ds)| ==> MsgLive(Flat(ds)[i], live)
  {
    hide MsgLive;
    if ds != [] {
      JoinMsgsLive(ds[0], live);
      FlatMsgsLive(ds[1..], live);
    }
  }

  lemma CallersInLive(clients: Deques<Msg>, live: set<Connect>, c: Connect)
    requires ClientsLive(clients, live) && c !in live
    ensures CallersIn(clients)[c] == 0
  {
    FlatMsgsLive(clients, live);
    CallersLive(Flat(clients), live, c);
  }

  lemma NothingPointsOutside(s: State, c: Connect)
    requires Wf(s) && c !in s.conns
    ensures WorkersIn(s.workers)[c] == 0 && CallersIn(s.clients)[c] == 0
    ensures Waiting(s.wait, c) == {} && Linking(s.conns, c) == {} && Serving(s.conns, c) == {}
    ensures c !in s.table && multiset(s.dead)[c] == 0
    ensures forall q :: 0 <= q < |s.lists| ==> multiset(s.lists[q])[c] == 0
  {
    WorkersInLive(s.workers, s.conns.Keys, c);
    CallersInLive(s.clients, s.conns.Keys, c);
    hide WorkersIn, CallersIn, WorkersLive, ClientsLive;
    forall q | 0 <= q < |s.lists| ensures multiset(s.lists[q])[c] == 0 {
      ListLive(s, q);
      assert c !in s.lists[q];
    }
    assert c !in s.dead;
  }

  lemma AcceptWf(s: State, c: Connect, loop: nat)
    requires Wf(s) && c !in s.conns && loop < s.threads
    ensures Wf(Accept(s, c, loop))
  {
    assert Accept(s, c, loop).conns.Keys == s.conns.Keys + {c};
  }

  lemma NewLinks(conns: map<Connect, Conn>, c: Connect, loop: nat)
    requires c !in conns
    ensures forall x :: Linking(conns[c := NewConnection(loop)], x) == Linking(conns, x)
    ensures forall x :: Serving(conns[c := NewConnection(loop)], x) == Serving(conns, x)
  {
  }

  lemma AcceptPointers(s: State, c: Connect, loop: nat, x: Connect)
    requires Wf(s) && c !in s.conns && (x in s.conns || x == c)
    ensures Pointers(Accept(s, c, loop), x) == (if x == c then 1 else Pointers(s, x))
    ensures Places(Accept(s, c, loop), x) == (if x == c then 0 else Places(s, x))
  {
    NothingPointsOutside(s, c);
    NewLinks(s.conns, c, loop);
    hide Wf, WorkersIn, CallersIn, Waiting, Linking, Serving, Grounded, ConnsLive;
  }

  lemma AcceptExact(s: State, c: Connect, loop: nat)
    requires Wf(s) && Exact(s, multiset{}) && c !in s.conns && multiset(s.dead)[c] == 0
    ensures Exact(Accept(s, c, loop), multiset{})
  {
    hide Wf, Grounded, ConnsLive;
    hide Pointers, Places;
    var t := Accept(s, c, loop);
    forall x | x in t.conns ensures t.conns[x].link == Pointers(t, x) {
      AcceptPointers(s, c, loop, x);
    }
    assert t.dead == s.dead;
  }

  lemma AcceptPlaced(s: State, c: Connect, loop: nat)
    requires Wf(s) && Placed(s, multiset{}) && c !in s.conns
    ensures Placed(Accept(s, c, loop), multiset{})
  {
    hide Wf, Grounded, ConnsLive;
    hide Pointers, Places;
    var t := Accept(s, c, loop);
    forall x | x in t.conns ensures Places(t, x) == (if x == c then 0 else Places(s, x)) {
      AcceptPointers(s, c, loop, x);
    }
  }

  lemma AcceptRest(s: State, c: Connect, loop: nat)
    requires WaitOk(s.wait, s.conns) && ItemsOk(s.lists, s.conns) && Opened(s.conns, s.table) && c !in s.conns
    requires forall q :: 0 <= q < |s.lists| ==> multiset(s.lists[q])[c] == 0
    ensures var t := Accept(s, c, loop);
      WaitOk(t.wait, t.conns) && ItemsOk(t.lists, t.conns) && Opened(t.conns, t.table)
  {
  }

  lemma AcceptSane(s: State, c: Connect, loop: nat)
    requires Sane(s) && Wf(s) && c !in s.conns && loop < s.threads
    ensures Sane(Accept(s, c, loop))
  {
    hide Wf, Exact, Placed, WaitOk, ItemsOk, Opened, Grounded, ConnsLive;
    AcceptWf(s, c, loop);
    NothingPointsOutside(s, c);
    AcceptExact(s, c, loop);
    AcceptPlaced(s, c, loop);
    AcceptRest(s, c, loop);
  }

  // Freeing

  lemma {:induction false} ElsewhereCount(s: State, dead: seq<Connect>, loop: nat, c: Connect)
    requires (forall i :: 0 <= i < |dead| ==> dead[i] in s.conns) && c in s.conns
    ensures multiset(DeadElsewhere(s, dead, loop))[c] == (if s.conns[c].nloop == loop then 0 else multiset(dead)[c])
  {
    if dead != [] {
      ElsewhereCount(s, dead[1..], loop, c);
      assert dead == [dead[0]] + dead[1..];
      var head := if s.conns[dead[0]].nloop == loop then [] else [dead[0]];
      var rest := DeadElsewhere(s, dead[1..], loop);
      assert multiset(head + rest) == multiset(head) + multiset(rest);
    }
  }

  lemma {:induction false} ElsewhereMember(s: State, dead: seq<Connect>, loop: nat, c: Connect)
    requires forall i :: 0 <= i < |dead| ==> dead[i] in s.conns
    requires c in DeadElsewhere(s, dead, loop)
    ensures c in dead && s.conns[c].nloop != loop
  {
    if dead != [] && !(s.conns[dead[0]].nloop != loop && c == dead[0]) {
      ElsewhereMember(s, dead[1..], loop, c);
    }
  }

  /** Nothing points at a connection that is about to be freed. */
  lemma VictimFree(s: State, loop: nat, c: Connect)
    requires Sane(s) && c in Victims(s, loop)
    ensures WorkersIn(s.workers)[c] == 0 && CallersIn(s.clients)[c] == 0
    ensures Waiting(s.wait, c) == {} && Linking(s.conns, c) == {} && c !in s.table && s.conns[c].item.None?
    ensures s.conns[c].closed && s.conns[c].client.None?
  {
    hide Wf, Placed, ItemsOk, WaitOk, WorkersIn, CallersIn, Grounded, ConnsLive;
    assert Pointers(s, c) == 0;
  }

  predicate Spared(conns: map<Connect, Conn>, left: map<Connect, Conn>, victims: set<Connect>) {
    && left.Keys == conns.Keys - victims
    && forall c :: c in left ==> left[c] == conns[c]
  }

  lemma SparedLinks(conns: map<Connect, Conn>, left: map<Connect, Conn>, victims: set<Connect>)
    requires Spared(conns, left, victims)
    requires forall c :: c in victims && c in conns ==> conns[c].client.None?
    ensures forall x :: Linking(left, x) == Linking(conns, x) && Serving(left, x) == Serving(conns, x)
  {
  }

  lemma FreedGrounded(s: State, loop: nat)
    requires Sane(s) && Wf(s)
    ensures var t := DeleteConnections(s, loop);
      && WorkersLive(t.workers, t.conns.Keys) && ClientsLive(t.clients, t.conns.Keys)
  {
    var t := DeleteConnections(s, loop);
    hide Sane;
    forall q, l, i | 0 <= q < |t.workers| && 0 <= l < |t.workers[q]| && 0 <= i < |t.workers[q][l]|
      ensures t.workers[q][l][i] in t.conns
    {
      FreedWorker(s, loop, q, l, i);
    }
    forall q, l, i | 0 <= q < |t.clients| && 0 <= l < |t.clients[q]| && 0 <= i < |t.clients[q][l]|
      ensures MsgLive(t.clients[q][l][i], t.conns.Keys)
    {
      FreedMessage(s, loop, q, l, i);
    }
  }

  lemma FreedWorker(s: State, loop: nat, q: nat, l: nat, i: nat)
    requires Sane(s) && Wf(s) && q < |s.workers| && l < |s.workers[q]| && i < |s.workers[q][l]|
    ensures s.workers[q][l][i] in s.conns && s.workers[q][l][i] !in Victims(s, loop)
  {
    hide Sane;
    var w := s.workers[q][l][i];
    FlatHas(s.workers, q, l, i);
    if w in Victims(s, loop) {
      VictimFree(s, loop, w);
      assert false;
    }
  }

  lemma FreedMessage(s: State, loop: nat, q: nat, l: nat, i: nat)
    requires Sane(s) && Wf(s) && q < |s.clients| && l < |s.clients[q]| && i < |s.clients[q][l]|
    ensures s.clients[q][l][i].conn.Some? ==>
      s.clients[q][l][i].conn.value in s.conns && s.clients[q][l][i].conn.value !in Victims(s, loop)
  {
    hide Sane;
    var m := s.clients[q][l][i];
    assert MsgLive(m, s.conns.Keys);
    if m.conn.Some? {
      CallerCounted(s.clients, q, l, i);
      if m.conn.value in Victims(s, loop) {
        VictimFree(s, loop, m.conn.value);
        assert false;
      }
    }
  }

  lemma FreedSpared(s: State, loop: nat)
    requires Sane(s) && Wf(s)
    ensures var t := DeleteConnections(s, loop);
      && Spared(s.conns, t.conns, Victims(s, loop))
      && (forall x :: Linking(t.conns, x) == Linking(s.conns, x) && Serving(t.conns, x) == Serving(s.conns, x))
  {
    hide Sane, Wf, Linking, Serving, Grounded, ConnsLive;
    var t := DeleteConnections(s, loop);
    forall c | c in Victims(s, loop) && c in s.conns ensures s.conns[c].client.None? {
      VictimFree(s, loop, c);
    }
    SparedLinks(s.conns, t.conns, Victims(s, loop));
  }

  lemma FreedWf(s: State, loop: nat)
    requires Sane(s) && Wf(s)
    ensures Wf(DeleteConnections(s, loop))
  {
    var t := DeleteConnections(s, loop);
    FreedGrounded(s, loop);
    FreedRest(s, loop);
    FreedConns(s, loop);
    FreedDead(s, loop);
    hide WorkersLive, ClientsLive, ListsLive, WaitLive, ConnsLive, Sane, DeadElsewhere;
  }

  lemma FreedRest(s: State, loop: nat)
    requires Sane(s) && Wf(s)
    ensures var t := DeleteConnections(s, loop);
      t.table <= t.conns.Keys && ListsLive(t.lists, t.conns.Keys) && WaitLive(t.wait, t.conns.Keys)
  {
    var t := DeleteConnections(s, loop);
    forall c | c in s.table ensures c in t.conns {
      if c in Victims(s, loop) {
        VictimFree(s, loop, c);
        assert false;
      }
    }
    forall id | id in s.wait ensures s.wait[id] in t.conns {
      FreedEntry(s, loop, id);
    }
    forall q, i | 0 <= q < |s.lists| && 0 <= i < |s.lists[q]| ensures s.lists[q][i] in t.conns {
      FreedItem(s, loop, q, i);
    }
  }

  lemma FreedEntry(s: State, loop: nat, id: string)
    requires Sane(s) && Wf(s) && id in s.wait
    ensures s.wait[id] in s.conns && s.wait[id] !in Victims(s, loop)
  {
    hide Sane;
    var c := s.wait[id];
    assert id in Waiting(s.wait, c);
    if c in Victims(s, loop) {
      VictimFree(s, loop, c);
      assert false;
    }
  }

  lemma FreedItem(s: State, loop: nat, q: nat, i: nat)
    requires Sane(s) && Wf(s) && q < |s.lists| && i < |s.lists[q]|
    ensures s.lists[q][i] in s.conns && s.lists[q][i] !in Victims(s, loop)
  {
    hide Sane;
    var c := s.lists[q][i];
    ListedItem(s, q, i);
    if c in Victims(s, loop) {
      VictimFree(s, loop, c);
      assert false;
    }
  }

  /** A listed connection knows its list. */
  lemma ListedItem(s: State, q: nat, i: nat)
    requires Sane(s) && Wf(s) && q < |s.lists| && i < |s.lists[q]|
    ensures s.lists[q][i] in s.conns && s.conns[s.lists[q][i]].item == Some(q)
  {
    hide Exact, Placed, WaitOk, Opened, ConnOk, WorkersLive, ClientsLive, WaitLive, ConnsLive;
    assert s.lists[q][i] in multiset(s.lists[q]);
  }

  lemma FreedConns(s: State, loop: nat)
    requires Sane(s) && Wf(s)
    ensures var t := DeleteConnections(s, loop);
      ConnsLive(t.conns, |t.lists|, t.threads)
  {
    hide Sane;
    var t := DeleteConnections(s, loop);
    forall c | c in t.conns ensures ConnLive(t.conns[c], t.conns.Keys, |t.lists|, t.threads) {
      ConnIsLive(s, c);
      if s.conns[c].client.Some? {
        FreedClient(s, loop, c);
      }
    }
  }

  lemma FreedClient(s: State, loop: nat, w: Connect)
    requires Sane(s) && Wf(s) && w in s.conns && s.conns[w].client.Some?
    ensures s.conns[w].client.value !in Victims(s, loop)
  {
    hide Sane;
    var c := s.conns[w].client.value;
    assert w in Linking(s.conns, c);
    if c in Victims(s, loop) {
      VictimFree(s, loop, c);
      assert false;
    }
  }

  lemma FreedDead(s: State, loop: nat)
    requires Wf(s)
    ensures var t := DeleteConnections(s, loop);
      forall c :: c in t.dead ==> c in t.conns
  {
    var t := DeleteConnections(s, loop);
    forall c | c in t.dead ensures c in t.conns {
      ElsewhereMember(s, s.dead, loop, c);
    }
  }

  lemma FreedCounts(s: State, loop: nat)
    requires Sane(s) && Wf(s)
    ensures var t := DeleteConnections(s, loop);
      forall c :: c in t.conns ==>
        (&& Pointers(t, c) == Pointers(s, c) && Places(t, c) == Places(s, c)
         && multiset(t.dead)[c] == (if s.conns[c].nloop == loop then 0 else multiset(s.dead)[c]))
  {
    hide Sane;
    FreedSpared(s, loop);
    hide Linking, Serving, Waiting, WorkersIn, CallersIn;
    var t := DeleteConnections(s, loop);
    forall c | c in t.conns
      ensures Pointers(t, c) == Pointers(s, c) && Places(t, c) == Places(s, c)
      ensures multiset(t.dead)[c] == (if s.conns[c].nloop == loop then 0 else multiset(s.dead)[c])
    {
      ElsewhereCount(s, s.dead, loop, c);
    }
  }

  /** _delete_connections frees exactly the connections of its loop that nothing points at. */
  lemma DeleteSane(s: State, loop: nat)
    requires Sane(s) && Wf(s)
    ensures Sane(DeleteConnections(s, loop))
  {
    hide Wf, WaitOk, ItemsOk, Opened, ConnOk, Pointers, Places, DeadElsewhere, Grounded, ConnsLive;
    FreedWf(s, loop);
    FreedCounts(s, loop);
    FreedSpared(s, loop);
    FreedOk(s, loop);
    hide DeadElsewhere;
  }

  lemma FreedOk(s: State, loop: nat)
    requires Sane(s) && Wf(s)
    ensures var t := DeleteConnections(s, loop);
      WaitOk(t.wait, t.conns) && ItemsOk(t.lists, t.conns) && Opened(t.conns, t.table)
  {
    hide Wf, Exact, Placed, ConnOk, Grounded, ConnsLive;
    FreedRest(s, loop);
  }

  // Runs

  predicate InTable(s: State, c: Connect) {
    c in s.conns && c in s.table
  }

  lemma TableIsOpen(s: State, c: Connect)
    requires Sane(s) && InTable(s, c)
    ensures !s.conns[c].closed
  {
    hide Wf, Exact, Placed, WaitOk, ItemsOk, Grounded, ConnsLive;
  }

  /** Every step keeps the broker sane. */
  lemma StepSane(s: State, e: Event)
    requires Sane(s) && Wf(s) && Enabled(s, e)
    ensures Sane(Step(s, e))
  {
    hide Sane, Wf, Grounded, ConnsLive;
    match e
    case Accepted(c, loop) => AcceptSane(s, c, loop);
    case Begun(c) => TableIsOpen(s, c); BeginSane(s, c);
    case Completed(c, r, now, rnd) => TableIsOpen(s, c); CompleteSane(s, c, r, now, rnd);
    case Disconnected(c) => TableIsOpen(s, c); DisconnectSane(s, c);
    case TimedOut(now) => CheckTimeoutSane(s, now);
    case Cleaned(locked) => CleanSane(s, 0, locked);
    case Deleted(loop) => DeleteSane(s, loop);
  }

  lemma StartSane(threads: nat)
    requires threads > 0
    ensures Sane(Start(threads))
  {
  }
}
