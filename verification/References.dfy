/**
 Reference counting. The link count of a connection must equal the number of places that
 point at it. While a handler runs it may own references that are stored nowhere yet (or no
 longer); those are the multiset `held`, empty between handlers.
 */
module References {
  import opened Connections
  import opened Deques
  import opened BrokerState

  /** The clients that a sequence of messages points at. */
  function Callers(ms: seq<Msg>): seq<Connect> {
    if ms == [] then []
    else (if ms[0].conn.Some? then [ms[0].conn.value] else []) + Callers(ms[1..])
  }

  lemma {:induction false} CallersAppend(a: seq<Msg>, b: seq<Msg>)
    ensures Callers(a + b) == Callers(a) + Callers(b)
  {
    if a == [] {
      assert a + b == b;
    } else {
      assert (a + b)[1..] == a[1..] + b;
      CallersAppend(a[1..], b);
    }
  }

  function CallersIn(clients: Deques<Msg>): multiset<Connect> {
    multiset(Callers(Flat(clients)))
  }

  function WorkersIn(workers: Deques<Connect>): multiset<Connect> {
    multiset(Flat(workers))
  }

  /** The request ids under which a connection waits for a result. */
  function Waiting(wait: map<string, Connect>, c: Connect): set<string> {
    set id | id in wait && wait[id] == c
  }

  /** The workers whose client pointer is c. */
  function Linking(conns: map<Connect, Conn>, c: Connect): set<Connect> {
    set w | w in conns && conns[w].client == Some(c)
  }

  /** The number of places that point at c. */
  function Pointers(s: State, c: Connect): nat
    requires c in s.conns
  {
    (if c in s.table then 1 else 0) + WorkersIn(s.workers)[c] + CallersIn(s.clients)[c]
    + |Waiting(s.wait, c)| + |Linking(s.conns, c)| + (if s.conns[c].item.Some? then 1 else 0)
  }

  ghost predicate Exact(s: State, held: multiset<Connect>) {
    && !s.fault
    && (forall c :: c in s.conns ==> s.conns[c].link == Pointers(s, c) + held[c])
    && (forall c :: c in s.conns ==> multiset(s.dead)[c] == (if s.conns[c].link == 0 then 1 else 0))
  }

  // Effects on the counts of a message entering or leaving a deque.

  lemma CallersRemoved(ds: Deques<Msg>, q: nat, l: nat, i: nat)
    requires q < |ds| && l < |ds[q]| && i < |ds[q][l]|
    ensures CallersIn(SetAt(ds, q, l, RemoveAt(ds[q][l], i))) + multiset(Callers([ds[q][l][i]])) == CallersIn(ds)
  {
    var d, x := ds[q][l], ds[q][l][i];
    var pre, post := FlatSplit(ds, q, l, RemoveAt(d, i));
    assert d == d[..i] + ([x] + d[i + 1..]);
    CallersOfFour(pre, d[..i], d[i + 1..], post);
    CallersOfFour(pre, d[..i], [x] + d[i + 1..], post);
    CallersAppend([x], d[i + 1..]);
  }

  lemma CallersInserted(ds: Deques<Msg>, q: nat, l: nat, i: nat, x: Msg)
    requires q < |ds| && l < |ds[q]| && i <= |ds[q][l]|
    ensures CallersIn(SetAt(ds, q, l, InsertAt(ds[q][l], i, x))) == CallersIn(ds) + multiset(Callers([x]))
  {
    var d := ds[q][l];
    var pre, post := FlatSplit(ds, q, l, InsertAt(d, i, x));
    assert d == d[..i] + d[i..];
    assert InsertAt(d, i, x) == d[..i] + ([x] + d[i..]);
    CallersOfFour(pre, d[..i], d[i..], post);
    CallersOfFour(pre, d[..i], [x] + d[i..], post);
    CallersAppend([x], d[i..]);
  }

  lemma CallersOfFour(a: seq<Msg>, b: seq<Msg>, c: seq<Msg>, d: seq<Msg>)
    ensures multiset(Callers(a + (b + c) + d))
         == multiset(Callers(a)) + multiset(Callers(b)) + multiset(Callers(c)) + multiset(Callers(d))
  {
    CallersAppend(a + (b + c), d);
    CallersAppend(a, b + c);
    CallersAppend(b, c);
    BagOfFour(Callers(a), Callers(b), Callers(c), Callers(d));
  }

  /** What is pointed at less often is held instead, or the other way round. */
  lemma Recounted(s: State, t: State, held: multiset<Connect>, left: multiset<Connect>)
    requires Exact(s, held) && t.conns.Keys == s.conns.Keys && t.dead == s.dead && t.fault == s.fault
    requires forall x :: x in s.conns ==>
      t.conns[x].link == s.conns[x].link && Pointers(t, x) + left[x] == Pointers(s, x) + held[x]
    ensures Exact(t, left)
  {
    hide Pointers;
  }

  // What each small update does to the account.

  lemma SameLinking(conns: map<Connect, Conn>, c: Connect, v: Conn)
    requires c in conns && v.client == conns[c].client
    ensures forall x :: x in conns ==> Linking(conns[c := v], x) == Linking(conns, x)
  {
  }

  lemma UpdExact(s: State, c: Connect, v: Conn, held: multiset<Connect>)
    requires Exact(s, held) && c in s.conns
    requires v.link == s.conns[c].link && v.client == s.conns[c].client
    requires v.item.Some? == s.conns[c].item.Some?
    ensures Exact(Upd(s, c, v), held)
  {
    hide Linking, Waiting, WorkersIn, CallersIn;
    SameLinking(s.conns, c, v);
  }

  lemma LinkExact(s: State, c: Connect, held: multiset<Connect>)
    requires Exact(s, held) && c in s.conns && s.conns[c].link > 0
    ensures Exact(Link(s, c), held + multiset{c})
  {
    hide Linking, Waiting, WorkersIn, CallersIn;
    SameLinking(s.conns, c, s.conns[c].(link := s.conns[c].link + 1));
  }

  /** What losing a link changes. */
  lemma UnlinkCounts(s: State, c: Connect)
    requires c in s.conns
    ensures var t := Unlink(s, c); var n := s.conns[c].link - 1;
      && t.conns.Keys == s.conns.Keys && t.conns[c].link == n
      && (forall x :: x in s.conns ==> Pointers(t, x) == Pointers(s, x))
      && (forall x :: x in s.conns && x != c ==> t.conns[x].link == s.conns[x].link)
      && t.dead == (if n == 0 then s.dead + [c] else s.dead) && t.fault == (s.fault || n < 0)
  {
    hide Linking, Waiting, WorkersIn, CallersIn;
    SameLinking(s.conns, c, s.conns[c].(link := s.conns[c].link - 1));
  }

  lemma UnlinkExact(s: State, c: Connect, held: multiset<Connect>)
    requires Exact(s, held) && c in s.conns && held[c] > 0
    ensures Exact(Unlink(s, c), held - multiset{c})
  {
    hide Pointers, Unlink;
    UnlinkCounts(s, c);
    var t, left := Unlink(s, c), held - multiset{c};
    forall x | x in t.conns ensures t.conns[x].link == Pointers(t, x) + left[x] {
      assert s.conns[x].link == Pointers(s, x) + held[x];
    }
    assert s.conns[c].link > 0 && c !in multiset(s.dead);
    assert multiset(s.dead + [c]) == multiset(s.dead) + multiset{c};
  }

  lemma WorkerOut(s: State, q: nat, l: nat, i: nat, held: multiset<Connect>)
    requires Exact(s, held)
    requires q < |s.workers| && l < |s.workers[q]| && i < |s.workers[q][l]|
    ensures Exact(SetWorkers(s, q, l, RemoveAt(s.workers[q][l], i)), held + multiset{s.workers[q][l][i]})
  {
    hide Linking, Waiting, CallersIn;
    FlatRemoved(s.workers, q, l, i);
  }

  lemma WorkerIn(s: State, q: nat, l: nat, i: nat, w: Connect, held: multiset<Connect>)
    requires Exact(s, held + multiset{w})
    requires q < |s.workers| && l < |s.workers[q]| && i <= |s.workers[q][l]|
    ensures Exact(SetWorkers(s, q, l, InsertAt(s.workers[q][l], i, w)), held)
  {
    hide Linking, Waiting, CallersIn;
    FlatInserted(s.workers, q, l, i, w);
  }

  lemma MessageOut(s: State, q: nat, l: nat, i: nat, held: multiset<Connect>)
    requires Exact(s, held)
    requires q < |s.clients| && l < |s.clients[q]| && i < |s.clients[q][l]|
    ensures Exact(SetClients(s, q, l, RemoveAt(s.clients[q][l], i)), held + multiset(Callers([s.clients[q][l][i]])))
  {
    hide Linking, Waiting, WorkersIn, CallersIn, Callers, RemoveAt, SetAt, Exact;
    CallersRemoved(s.clients, q, l, i);
    Recounted(s, SetClients(s, q, l, RemoveAt(s.clients[q][l], i)), held,
        held + multiset(Callers([s.clients[q][l][i]])));
  }

  lemma MessageIn(s: State, q: nat, l: nat, i: nat, m: Msg, held: multiset<Connect>)
    requires Exact(s, held + multiset(Callers([m])))
    requires q < |s.clients| && l < |s.clients[q]| && i <= |s.clients[q][l]|
    ensures Exact(SetClients(s, q, l, InsertAt(s.clients[q][l], i, m)), held)
  {
    hide Linking, Waiting, WorkersIn, CallersIn, Callers, InsertAt, SetAt, Exact;
    CallersInserted(s.clients, q, l, i, m);
    Recounted(s, SetClients(s, q, l, InsertAt(s.clients[q][l], i, m)), held + multiset(Callers([m])), held);
  }

  lemma WaitAdded(wait: map<string, Connect>, id: string, c: Connect)
    requires id !in wait
    ensures |Waiting(wait[id := c], c)| == |Waiting(wait, c)| + 1
    ensures forall x :: x != c ==> Waiting(wait[id := c], x) == Waiting(wait, x)
  {
    assert Waiting(wait[id := c], c) == Waiting(wait, c) + {id};
  }

  lemma WaitRemoved(wait: map<string, Connect>, id: string)
    requires id in wait
    ensures |Waiting(wait - {id}, wait[id])| + 1 == |Waiting(wait, wait[id])|
    ensures forall x :: x != wait[id] ==> Waiting(wait - {id}, x) == Waiting(wait, x)
  {
    assert Waiting(wait, wait[id]) == Waiting(wait - {id}, wait[id]) + {id};
  }

  lemma WaitIn(s: State, id: string, c: Connect, held: multiset<Connect>)
    requires Exact(s, held + multiset{c}) && id !in s.wait && c in s.conns
    ensures Exact(s.(wait := s.wait[id := c]), held)
  {
    hide Linking, Waiting, WorkersIn, CallersIn;
    WaitAdded(s.wait, id, c);
  }

  lemma WaitOut(s: State, id: string, held: multiset<Connect>)
    requires Exact(s, held) && id in s.wait && s.wait[id] in s.conns
    ensures Exact(s.(wait := s.wait - {id}), held + multiset{s.wait[id]})
  {
    hide Linking, Waiting, WorkersIn, CallersIn;
    WaitRemoved(s.wait, id);
  }

  lemma LinkingAdded(conns: map<Connect, Conn>, w: Connect, c: Connect, v: Conn)
    requires w in conns && conns[w].client.None? && v.client == Some(c)
    ensures |Linking(conns[w := v], c)| == |Linking(conns, c)| + 1
    ensures forall x :: x != c ==> Linking(conns[w := v], x) == Linking(conns, x)
  {
    assert Linking(conns[w := v], c) == Linking(conns, c) + {w};
  }

  lemma LinkingRemoved(conns: map<Connect, Conn>, w: Connect, c: Connect, v: Conn)
    requires w in conns && conns[w].client == Some(c) && v.client == None
    ensures |Linking(conns[w := v], c)| + 1 == |Linking(conns, c)|
    ensures forall x :: x != c ==> Linking(conns[w := v], x) == Linking(conns, x)
  {
    assert Linking(conns, c) == Linking(conns[w := v], c) + {w};
  }

  lemma ClientIn(s: State, w: Connect, c: Connect, held: multiset<Connect>)
    requires Exact(s, held + multiset{c}) && w in s.conns && s.conns[w].client.None?
    ensures Exact(SetClient(s, w, Some(c)), held)
  {
    hide Linking, Waiting, WorkersIn, CallersIn, Exact;
    LinkingAdded(s.conns, w, c, s.conns[w].(client := Some(c)));
    Recounted(s, SetClient(s, w, Some(c)), held + multiset{c}, held);
  }

  lemma ClientOut(s: State, w: Connect, held: multiset<Connect>)
    requires Exact(s, held) && w in s.conns && s.conns[w].client.Some?
    ensures Exact(SetClient(s, w, None), held + multiset{s.conns[w].client.value})
  {
    hide Linking, Waiting, WorkersIn, CallersIn, Exact;
    var c := s.conns[w].client.value;
    LinkingRemoved(s.conns, w, c, s.conns[w].(client := None));
    Recounted(s, SetClient(s, w, None), held, held + multiset{c});
  }
}
