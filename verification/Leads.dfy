/**
 What a handler does around the one job it hands out: connections only get replies that bring
 no job, messages only leave their deques, and ready workers keep their entries.
 */
module Leads {
  import opened Connections
  import opened Deques
  import opened Names
  import opened BrokerState
  import opened Common
  import opened ClientRequests
  import opened WorkerRequests
  import opened Sessions
  import opened Invariants
  import opened Order

  /** What becomes of a connection; the one that is served, `own`, may change its request and its readiness. */
  predicate Follows(u: Conn, v: Conn, own: bool) {
    && Grows(u.out, v.out) && v.nloop == u.nloop
    && (!own ==> Alike(u, v))
  }

  predicate Alike(u: Conn, v: Conn) {
    && v.name == u.name && v.body == u.body && v.connectionId == u.connectionId && v.noid == u.noid
    && (Ready(v) ==> Ready(u))
    && (v.status == ClientWaitResult ==> u.status == ClientWaitResult)
  }

  predicate AllFollow(conns: map<Connect, Conn>, left: map<Connect, Conn>, w: Connect) {
    conns.Keys == left.Keys && forall c :: c in conns ==> Follows(conns[c], left[c], c == w)
  }

  predicate SomeOf(clients: Deques<Msg>, q: nat, l: nat, d: seq<Msg>) {
    if q < |clients| && l < |clients[q]| then forall m :: m in d ==> m in clients[q][l] else d == []
  }

  /** Messages only leave. */
  predicate Fewer(clients: Deques<Msg>, left: Deques<Msg>) {
    && |clients| <= |left|
    && (forall q :: 0 <= q < |clients| ==> |left[q]| == |clients[q]|)
    && (forall q, l :: 0 <= q < |left| && 0 <= l < |left[q]| ==> SomeOf(clients, q, l, left[q][l]))
  }

  predicate Stays(d: seq<Connect>, e: seq<Connect>, conns: map<Connect, Conn>, w: Connect) {
    forall x :: x in d && x != w && x in conns && Ready(conns[x]) ==> x in e
  }

  /** The entries of ready workers other than w stay where they are. */
  predicate EntriesStay(workers: Deques<Connect>, left: Deques<Connect>, conns: map<Connect, Conn>, w: Connect) {
    && |workers| <= |left|
    && (forall q :: 0 <= q < |workers| ==> |left[q]| == |workers[q]|)
    && (forall q, l :: 0 <= q < |workers| && 0 <= l < |workers[q]| ==> Stays(workers[q][l], left[q][l], conns, w))
  }

  /** t is s on the way to serving w: nobody has got a job yet. */
  ghost predicate Lead(s: State, t: State, w: Connect) {
    && AllFollow(s.conns, t.conns, w)
    && Fewer(s.clients, t.clients)
    && EntriesStay(s.workers, t.workers, t.conns, w)
    && t.accepted == s.accepted && t.stamp == s.stamp
  }

  lemma LeadRefl(s: State, w: Connect)
    ensures Lead(s, s, w)
  {
  }

  lemma LeadTrans(s: State, t: State, u: State, w: Connect)
    requires Lead(s, t, w) && Lead(t, u, w)
    ensures Lead(s, u, w)
  {
    hide AllFollow, Fewer, EntriesStay;
    FollowTrans(s.conns, t.conns, u.conns, w);
    FewerTrans(s.clients, t.clients, u.clients);
    EntriesTrans(s.workers, t.workers, u.workers, t.conns, u.conns, w);
  }

  lemma FollowTrans(a: map<Connect, Conn>, b: map<Connect, Conn>, c: map<Connect, Conn>, w: Connect)
    requires AllFollow(a, b, w) && AllFollow(b, c, w)
    ensures AllFollow(a, c, w)
  {
    hide Follows;
    forall x | x in a ensures Follows(a[x], c[x], x == w) {
      FollowsTrans(a[x], b[x], c[x], x == w);
    }
  }

  lemma FollowsTrans(a: Conn, b: Conn, c: Conn, own: bool)
    requires Follows(a, b, own) && Follows(b, c, own)
    ensures Follows(a, c, own)
  {
  }

  lemma FewerTrans(a: Deques<Msg>, b: Deques<Msg>, c: Deques<Msg>)
    requires Fewer(a, b) && Fewer(b, c)
    ensures Fewer(a, c)
  {
    forall q, l | 0 <= q < |c| && 0 <= l < |c[q]| ensures SomeOf(a, q, l, c[q][l]) {
      assert SomeOf(b, q, l, c[q][l]);
      if q < |b| && l < |b[q]| {
        assert SomeOf(a, q, l, b[q][l]);
        assert c[q][l] != [] ==> c[q][l][0] in b[q][l];
      }
    }
  }

  lemma EntriesTrans(a: Deques<Connect>, b: Deques<Connect>, c: Deques<Connect>,
                     m: map<Connect, Conn>, n: map<Connect, Conn>, w: Connect)
    requires EntriesStay(a, b, m, w) && EntriesStay(b, c, n, w) && AllFollow(m, n, w)
    ensures EntriesStay(a, c, n, w)
  {
    hide Ready;
    forall q, l | 0 <= q < |a| && 0 <= l < |a[q]| ensures Stays(a[q][l], c[q][l], n, w) {
      assert Stays(a[q][l], b[q][l], m, w) && Stays(b[q][l], c[q][l], n, w);
      forall x | x in a[q][l] && x != w && x in n && Ready(n[x]) ensures x in c[q][l] {
        assert Follows(m[x], n[x], x == w);
      }
    }
  }

  // Small updates

  lemma UpdLead(s: State, c: Connect, v: Conn, w: Connect)
    requires c in s.conns && Follows(s.conns[c], v, c == w)
    ensures Lead(s, Upd(s, c, v), w)
  {
  }

  /** What is neither a connection nor a deque does not matter here. */
  lemma SameLead(s: State, t: State, w: Connect)
    requires t.conns == s.conns && t.clients == s.clients && t.workers == s.workers
    requires t.accepted == s.accepted && t.stamp == s.stamp
    ensures Lead(s, t, w)
  {
  }

  lemma LinkedFollows(v: Conn, link: int, own: bool)
    ensures Follows(v, v.(link := link), own)
  {
  }

  lemma UnlinkLead(s: State, c: Connect, w: Connect)
    requires c in s.conns
    ensures Lead(s, Unlink(s, c), w) && Unlink(s, c).conns.Keys == s.conns.Keys
  {
    hide Lead, Follows;
    var v := s.conns[c].(link := s.conns[c].link - 1);
    LinkedFollows(s.conns[c], v.link, c == w);
    UpdLead(s, c, v, w);
    SameLead(Upd(s, c, v), Unlink(s, c), w);
    LeadTrans(s, Upd(s, c, v), Unlink(s, c), w);
  }

  lemma ToldFollows(v: Conn, r: Reply, own: bool)
    requires !IsJob(r) && !r.AsyncAccepted?
    ensures Follows(v, Told(v, r), own) && Follows(v, Served(v, Net, r), own)
  {
  }

  lemma SendLead(s: State, c: Connect, r: Reply, w: Connect)
    requires c in s.conns && !IsJob(r) && !r.AsyncAccepted?
    ensures Lead(s, Send(s, c, r), w) && Send(s, c, r).conns.Keys == s.conns.Keys
  {
    hide Lead, Follows;
    ToldFollows(s.conns[c], r, c == w);
    if s.conns[c].closed {
      SameLead(s, Send(s, c, r), w);
    } else {
      UpdLead(s, c, Told(s.conns[c], r), w);
    }
  }

  lemma RestLead(s: State, c: Connect, w: Connect)
    requires c in s.conns
    ensures Lead(s, SetStatus(s, c, Net), w)
  {
    UpdLead(s, c, s.conns[c].(status := Net), w);
  }

  // Erasing

  lemma RemovedSome(clients: Deques<Msg>, q: nat, l: nat, i: nat)
    requires q < |clients| && l < |clients[q]| && i < |clients[q][l]|
    ensures Fewer(clients, SetAt(clients, q, l, RemoveAt(clients[q][l], i)))
  {
    var left := SetAt(clients, q, l, RemoveAt(clients[q][l], i));
    forall p, k | 0 <= p < |left| && 0 <= k < |left[p]| ensures SomeOf(clients, p, k, left[p][k]) {
      if p != q || k != l {
        assert left[p][k] == clients[p][k];
      }
    }
  }

  lemma EraseMessageLead(s: State, q: nat, l: nat, i: nat, w: Connect)
    requires q < |s.clients| && l < |s.clients[q]| && i < |s.clients[q][l]| && MsgLive(s.clients[q][l][i], s.conns.Keys)
    ensures Lead(s, EraseMessage(s, q, l, i), w)
  {
    var t := SetClients(s, q, l, RemoveAt(s.clients[q][l], i));
    assert Lead(s, t, w) by {
      hide Fewer;
      RemovedSome(s.clients, q, l, i);
    }
    hide Lead, Unlink;
    var m := s.clients[q][l][i];
    if m.conn.Some? {
      UnlinkLead(t, m.conn.value, w);
      LeadTrans(s, t, Unlink(t, m.conn.value), w);
    }
  }

  lemma RemovedStays(workers: Deques<Connect>, q: nat, l: nat, i: nat, conns: map<Connect, Conn>, w: Connect)
    requires q < |workers| && l < |workers[q]| && i < |workers[q][l]|
    requires workers[q][l][i] in conns && (workers[q][l][i] == w || !Ready(conns[workers[q][l][i]]))
    ensures EntriesStay(workers, SetAt(workers, q, l, RemoveAt(workers[q][l], i)), conns, w)
  {
    hide Ready;
    var left := SetAt(workers, q, l, RemoveAt(workers[q][l], i));
    forall p, k | 0 <= p < |workers| && 0 <= k < |workers[p]| ensures Stays(workers[p][k], left[p][k], conns, w) {
      if p != q || k != l {
        assert left[p][k] == workers[p][k];
      } else {
        var d := workers[q][l];
        forall x | x in d && x != w && x in conns && Ready(conns[x]) ensures x in RemoveAt(d, i) {
          var j :| 0 <= j < |d| && d[j] == x;
          assert RemoveAt(d, i)[if j < i then j else j - 1] == x;
        }
      }
    }
  }

  /** An entry may go if its worker is not ready or is the one that is served. */
  lemma EraseWorkerLead(s: State, q: nat, l: nat, i: nat, w: Connect)
    requires q < |s.workers| && l < |s.workers[q]| && i < |s.workers[q][l]| && s.workers[q][l][i] in s.conns
    requires s.workers[q][l][i] == w || !Ready(s.conns[s.workers[q][l][i]])
    ensures Lead(s, EraseWorker(s, q, l, i), w)
  {
    var t := SetWorkers(s, q, l, RemoveAt(s.workers[q][l], i));
    assert Lead(s, t, w) by {
      hide EntriesStay;
      RemovedStays(s.workers, q, l, i, s.conns, w);
    }
    hide Lead, Unlink;
    UnlinkLead(t, s.workers[q][l][i], w);
    LeadTrans(s, t, Unlink(t, s.workers[q][l][i]), w);
  }

  // The scan for a message

  lemma ResolveIdLead(s: State, c: Connect, rnd: Entropy, w: Connect)
    requires c in s.conns
    ensures Lead(s, ResolveId(s, c, rnd), w) && ResolveId(s, c, rnd).clients == s.clients
    ensures ResolveId(s, c, rnd).conns.Keys == s.conns.Keys
  {
    hide ResolvedId, Lead;
    var u := Upd(s, c, s.conns[c].(id := ResolvedId(s, c, rnd)));
    UpdLead(s, c, u.conns[c], w);
    SameLead(u, ResolveId(s, c, rnd), w);
    LeadTrans(s, u, ResolveId(s, c, rnd), w);
  }

  lemma DropMessageLead(s: State, q: nat, l: nat, i: nat, rnd: Entropy, w: Connect)
    requires Wf(s) && q < |s.clients| && l < s.threads && i < |s.clients[q][l]| && s.clients[q][l][i].conn.Some?
    ensures MsgLive(s.clients[q][l][i], s.conns.Keys)
    ensures Lead(s, DropMessage(s, q, l, i, rnd), w)
  {
    hide Wf, Grounded, ConnsLive, Lead, ResolveId, ResolvedId, EraseMessage, Served, Follows, SetAt, RemoveAt;
    hide SameFrame;
    ClientLine(s, q);
    RemoveMessageWf(s, q, l, i);
    var c := s.clients[q][l][i].conn.value;
    if s.conns[c].closed || s.conns[c].status != ClientWaitResult {
      EraseMessageLead(s, q, l, i, w);
    } else {
      ResolveIdWf(s, c, rnd);
      ResolveIdLead(s, c, rnd, w);
      var t := ResolveId(s, c, rnd);
      assert Wf(t) by { KeptFrame(s, t); }
      RejectQueuedLead(t, q, l, i, c, w);
      LeadTrans(s, t, RejectQueued(t, q, l, i, c), w);
    }
  }

  lemma ClientLine(s: State, q: nat)
    requires Wf(s) && q < |s.clients|
    ensures |s.clients[q]| == s.threads
  {
  }

  lemma KeptFrame(s: State, t: State)
    requires SameFrame(s, t)
    ensures Wf(t) && t.conns.Keys == s.conns.Keys
  {
  }

  lemma RejectQueuedLead(t: State, q: nat, l: nat, i: nat, c: Connect, w: Connect)
    requires Wf(t) && q < |t.clients| && l < |t.clients[q]| && i < |t.clients[q][l]| && c in t.conns
    requires MsgLive(t.clients[q][l][i], t.conns.Keys)
    ensures Lead(t, RejectQueued(t, q, l, i, c), w)
  {
    hide Wf, Grounded, ConnsLive, Lead, EraseMessage, Served, Follows, SetAt, RemoveAt;
    EraseMessageWf(t, q, l, i);
    EraseMessageLead(t, q, l, i, w);
    var u := EraseMessage(t, q, l, i);
    ToldFollows(u.conns[c], CollisionId, c == w);
    UpdLead(u, c, Served(u.conns[c], Net, CollisionId), w);
    LeadTrans(t, u, RejectQueued(t, q, l, i, c), w);
  }

  lemma {:induction false} ScanMessagesLead(s: State, q: nat, l: nat, w: Connect, i: nat, rnd: Entropy)
    requires Wf(s) && q < |s.clients| && l < s.threads && i <= |s.clients[q][l]| && w in s.conns
    ensures Lead(s, ScanMessages(s, q, l, w, i, rnd).s, w)
    decreases |s.clients[q][l]| - i
  {
    hide Grounded, Lead, DropMessage, ResolveId;
    LeadRefl(s, w);
    var d := s.clients[q][l];
    if i < |d| {
      RemoveMessageWf(s, q, l, i);
      if !Suits(d[i].required, s.conns[w].connectionId) {
        ScanMessagesLead(s, q, l, w, i + 1, rnd);
      } else if !Takeable(s, d[i], w, rnd) {
        DropMessageLead(s, q, l, i, rnd, w);
        var t := DropMessage(s, q, l, i, rnd);
        ScanMessagesLead(t, q, l, w, i, rnd);
        LeadTrans(s, t, ScanMessages(t, q, l, w, i, rnd).s, w);
      } else if d[i].conn.Some? {
        ResolveIdLead(s, d[i].conn.value, rnd, w);
      }
    }
  }

  lemma {:induction false} FindMessageLead(s: State, q: nat, local: nat, w: Connect, index: int, rnd: Entropy)
    requires Wf(s) && q < |s.clients| && local < s.threads && -1 <= index && w in s.conns
    ensures Lead(s, FindMessage(s, q, local, w, index, rnd).s, w)
    decreases s.threads - index
  {
    hide Grounded, Lead, ScanMessages;
    LeadRefl(s, w);
    if index < s.threads {
      if index == local {
        FindMessageLead(s, q, local, w, index + 1, rnd);
      } else {
        ScanMessagesLead(s, q, LoopAt(index, local), w, 0, rnd);
        match ScanMessages(s, q, LoopAt(index, local), w, 0, rnd)
        case FoundMessage(t, l, i) =>
        case NoMessage(t) =>
          FindMessageLead(t, q, local, w, index + 1, rnd);
          LeadTrans(s, t, FindMessage(t, q, local, w, index + 1, rnd).s, w);
      }
    }
  }

  // Registering

  lemma {:induction false} SweepLead(s: State, q: nat, l: nat, w: Connect, i: nat)
    requires Wf(s) && q < |s.workers| && l < s.threads && i <= |s.workers[q][l]|
    ensures Lead(s, Sweep(s, q, l, w, i), w)
    decreases |s.workers[q][l]| - i
  {
    hide Grounded, Lead, EraseWorker;
    LeadRefl(s, w);
    var d := s.workers[q][l];
    if i < |d| {
      RemoveWorkerWf(s, q, l, i);
      if s.conns[d[i]].closed || d[i] == w {
        EraseWorkerWf(s, q, l, i);
        ErasedWorkers(s, q, l, i);
        EraseWorkerLead(s, q, l, i, w);
        var t := EraseWorker(s, q, l, i);
        SweepLead(t, q, l, w, i);
        LeadTrans(s, t, Sweep(t, q, l, w, i), w);
      } else {
        SweepLead(s, q, l, w, i + 1);
      }
    }
  }

  lemma AppendedStays(workers: Deques<Connect>, q: nat, l: nat, x: Connect, conns: map<Connect, Conn>, w: Connect)
    requires q < |workers| && l < |workers[q]|
    ensures EntriesStay(workers, SetAt(workers, q, l, InsertAt(workers[q][l], |workers[q][l]|, x)), conns, w)
  {
    hide Ready;
    var left := SetAt(workers, q, l, InsertAt(workers[q][l], |workers[q][l]|, x));
    forall p, k | 0 <= p < |workers| && 0 <= k < |workers[p]| ensures Stays(workers[p][k], left[p][k], conns, w) {
      if p != q || k != l {
        assert left[p][k] == workers[p][k];
      } else {
        assert left[q][l] == workers[q][l] + [x];
      }
    }
  }

  lemma ParkLead(s: State, q: nat, w: Connect)
    requires Wf(s) && q < |s.workers| && w in s.conns
    ensures Lead(s, Park(s, q, w), w)
    ensures var t := Park(s, q, w);
      w in t.conns && Posted(t, w)
  {
    hide Wf, Grounded, ConnsLive, Lead, Sweep, EntriesStay, Follows;
    ConnIsLive(s, w);
    var l := s.conns[w].nloop;
    SweepLead(s, q, l, w, 0);
    var t := Sweep(s, q, l, w, 0);
    FrameLines(s, t, q);
    var d := t.workers[q][l];
    var a := SetWorkers(t, q, l, InsertAt(d, |d|, w));
    AppendedLead(t, q, l, w);
    ParkedFollows(t.conns[w]);
    var v := t.conns[w].(link := t.conns[w].link + 1, status := WorkerWaitJob);
    UpdTwice(a, w, t.conns[w].(link := t.conns[w].link + 1), v);
    UpdLead(a, w, v, w);
    LeadTrans(s, t, a, w);
    LeadTrans(s, a, Upd(a, w, v), w);
    LeadLoop(s, t, w);
    AtEnd(t.workers, q, l, w);
    assert HasEntry(Park(s, q, w).workers, q, l, w);
  }

  lemma AppendedLead(t: State, q: nat, l: nat, w: Connect)
    requires q < |t.workers| && l < |t.workers[q]|
    ensures Lead(t, SetWorkers(t, q, l, InsertAt(t.workers[q][l], |t.workers[q][l]|, w)), w)
  {
    hide EntriesStay;
    AppendedStays(t.workers, q, l, w, t.conns, w);
  }

  lemma AtEnd(workers: Deques<Connect>, q: nat, l: nat, w: Connect)
    requires q < |workers| && l < |workers[q]|
    ensures w in SetAt(workers, q, l, InsertAt(workers[q][l], |workers[q][l]|, w))[q][l]
  {
    assert InsertAt(workers[q][l], |workers[q][l]|, w) == workers[q][l] + [w];
  }

  lemma FrameLines(s: State, t: State, q: nat)
    requires Wf(s) && SameFrame(s, t) && q < |s.workers|
    ensures q < |t.workers| && |t.workers[q]| == s.threads && t.conns.Keys == s.conns.Keys
    ensures |s.workers| == |s.clients| == |s.lists| && |s.clients[q]| == s.threads
    ensures |t.workers| == |t.clients| == |t.lists| && |t.clients[q]| == s.threads
  {
    hide Grounded;
  }

  lemma ParkedFollows(v: Conn)
    ensures Follows(v, v.(link := v.link + 1, status := WorkerWaitJob), true)
  {
  }

  lemma LeadLoop(s: State, t: State, w: Connect)
    requires Lead(s, t, w)
    ensures s.conns.Keys == t.conns.Keys && forall x :: x in s.conns ==> t.conns[x].nloop == s.conns[x].nloop
  {
    hide Fewer, EntriesStay, Alike, Grows;
    forall x | x in s.conns ensures t.conns[x].nloop == s.conns[x].nloop {
      assert Follows(s.conns[x], t.conns[x], x == w);
    }
  }

  /** A ready worker has an entry in a deque of its own loop. */
  ghost predicate Posted(s: State, w: Connect)
    requires w in s.conns
  {
    Ready(s.conns[w]) ==> exists q :: HasEntry(s.workers, q, s.conns[w].nloop, w)
  }

  predicate HasEntry(workers: Deques<Connect>, q: int, l: nat, w: Connect) {
    0 <= q < |workers| && l < |workers[q]| && w in workers[q][l]
  }

  /** All the others stay posted. */
  lemma LeadPosted(s: State, t: State, w: Connect, x: Connect)
    requires Lead(s, t, w) && x in s.conns && x != w && Posted(s, x)
    ensures x in t.conns && Posted(t, x)
  {
    hide Fewer, Ready, Grows;
    assert Follows(s.conns[x], t.conns[x], x == w);
    if Ready(t.conns[x]) {
      var q :| HasEntry(s.workers, q, s.conns[x].nloop, x);
      var l := s.conns[x].nloop;
      assert Stays(s.workers[q][l], t.workers[q][l], t.conns, w);
      assert HasEntry(t.workers, q, l, x);
    }
  }

  lemma UnlistedFollows(v: Conn, item: Option<nat>, link: int, own: bool)
    ensures Follows(v, v.(item := item, link := link), own)
  {
  }

  lemma PopItemLead(s: State, c: Connect, w: Connect)
    requires Wf(s) && c in s.conns
    ensures Lead(s, PopItem(s, c), w)
  {
    hide Wf, Grounded, ConnsLive, Lead, Unlink, Without, Follows;
    LeadRefl(s, w);
    ConnIsLive(s, c);
    var v := s.conns[c];
    if v.item.Some? {
      var q := v.item.value;
      UnlistedFollows(v, None, v.link, c == w);
      UpdLead(s, c, v.(item := None), w);
      var a := Upd(s, c, v.(item := None));
      var b := a.(lists := s.lists[q := Without(s.lists[q], c)]);
      SameLead(a, b, w);
      UnlinkLead(b, c, w);
      LeadTrans(s, a, b, w);
      LeadTrans(s, b, Unlink(b, c), w);
    }
  }

  lemma EnlistLead(s: State, q: nat, w: Connect, name: string)
    requires w in s.conns && q < |s.lists|
    ensures Lead(s, Enlist(s, q, w, name), w)
    ensures var t := Enlist(s, q, w, name);
      t.clients == s.clients && t.workers == s.workers && w in t.conns
      && EnlistKeeps(s.conns[w], t.conns[w])
      && (forall x :: x in s.conns && x != w ==> x in t.conns && t.conns[x] == s.conns[x])
  {
    hide Lead, Follows;
    var v := s.conns[w];
    var t := Enlist(s, q, w, name);
    EnlistedConns(s, q, w, name);
    EnlistKept(v, t.conns[w]);
    UpdLead(s, w, t.conns[w], w);
    SameLead(Upd(s, w, t.conns[w]), t, w);
    LeadTrans(s, Upd(s, w, t.conns[w]), t, w);
  }

  predicate EnlistKeeps(u: Conn, v: Conn) {
    && v.out == u.out && v.nloop == u.nloop && v.connectionId == u.connectionId && v.noid == u.noid
    && v.status == u.status && v.closed == u.closed
  }

  lemma EnlistKept(u: Conn, v: Conn)
    requires EnlistKeeps(u, v)
    ensures Follows(u, v, true)
  {
  }

  lemma EnlistedConns(s: State, q: nat, w: Connect, name: string)
    requires w in s.conns && q < |s.lists|
    ensures var t := Enlist(s, q, w, name);
      && w in t.conns && t.conns == s.conns[w := t.conns[w]] && EnlistKeeps(s.conns[w], t.conns[w])
      && t.clients == s.clients && t.workers == s.workers && t.accepted == s.accepted && t.stamp == s.stamp
  {
    hide PushItem;
    var v := s.conns[w];
    var b := if v.workerMode || v.noid || v.status == WorkerWaitJob then PushItem(s, w, q) else s;
    PushedKeeps(s, q, w);
    SetAgain(s.conns, w, b.conns[w], b.conns[w].(subName := name));
  }

  lemma SetAgain(conns: map<Connect, Conn>, w: Connect, u: Conn, v: Conn)
    ensures conns[w := u][w := v] == conns[w := v]
    ensures w in conns && u == conns[w] ==> conns == conns[w := u]
  {
  }

  lemma PushedKeeps(s: State, q: nat, w: Connect)
    requires w in s.conns && q < |s.lists|
    ensures var t := PushItem(s, w, q);
      && w in t.conns && t.conns == s.conns[w := t.conns[w]] && EnlistKeeps(s.conns[w], t.conns[w])
      && t.clients == s.clients && t.workers == s.workers && t.accepted == s.accepted && t.stamp == s.stamp
  {
    var v := s.conns[w];
    var u := v.(link := v.link + 1);
    SetAgain(s.conns, w, u, u.(item := Some(q)));
  }

  lemma CreateQueueLead(s: State, name: string, w: Connect)
    requires Wf(s)
    ensures Lead(s, CreateQueue(s, name), w)
  {
    hide Grounded;
    var t := CreateQueue(s, name);
    forall q, l | 0 <= q < |t.clients| && 0 <= l < |t.clients[q]| ensures SomeOf(s.clients, q, l, t.clients[q][l]) {
    }
  }

  lemma ResolveConnectionIdLead(s: State, w: Connect, rnd: Entropy)
    requires w in s.conns
    ensures Lead(s, ResolveConnectionId(s, w, rnd), w)
  {
    hide Lead, GeneratedId;
    LeadRefl(s, w);
    if s.conns[w].connectionId == "" {
      var v := s.conns[w].(connectionId := GeneratedId(s.idIndex + 1, rnd));
      UpdLead(s, w, v, w);
      SameLead(Upd(s, w, v), ResolveConnectionId(s, w, rnd), w);
      LeadTrans(s, Upd(s, w, v), ResolveConnectionId(s, w, rnd), w);
    }
  }

  lemma PrepareLead(s: State, w: Connect, name: string, rnd: Entropy)
    requires Wf(s) && w in s.conns
    ensures Lead(s, Prepare(s, w, name, rnd), w)
  {
    hide Wf, Grounded, ConnsLive, Lead, CreateQueue, PopItem, ResolveConnectionId;
    LeadRefl(s, w);
    ShapeOf(s);
    OpenQueueWf(s, name);
    CreateQueueLead(s, name, w);
    var a := OpenQueue(s, name);
    hide OpenQueue;
    ResolveConnectionIdWf(a, w, rnd);
    ResolveConnectionIdLead(a, w, rnd);
    var b := ResolveConnectionId(a, w, rnd);
    LeadTrans(s, a, b, w);
    ConnIsLive(b, w);
    PopItemLead(b, w, w);
    LeadTrans(s, b, PopItem(b, w), w);
  }

  lemma ShapeOf(s: State)
    requires Wf(s)
    ensures Shape(s)
  {
  }

  // The scan for a worker

  lemma {:induction false} ScanWorkersLead(s: State, q: nat, l: nat, required: string, i: nat, c: Connect)
    requires Wf(s) && q < |s.workers| && l < s.threads && i <= |s.workers[q][l]|
    ensures Lead(s, ScanWorkers(s, q, l, required, i).s, c)
    decreases |s.workers[q][l]| - i
  {
    hide Grounded, Lead, EraseWorker;
    LeadRefl(s, c);
    var d := s.workers[q][l];
    if i < |d| {
      RemoveWorkerWf(s, q, l, i);
      if !Suits(required, s.conns[d[i]].connectionId) {
        ScanWorkersLead(s, q, l, required, i + 1, c);
      } else if !Ready(s.conns[d[i]]) {
        EraseWorkerWf(s, q, l, i);
        ErasedWorkers(s, q, l, i);
        EraseWorkerLead(s, q, l, i, c);
        var t := EraseWorker(s, q, l, i);
        ScanWorkersLead(t, q, l, required, i, c);
        LeadTrans(s, t, ScanWorkers(t, q, l, required, i).s, c);
      }
    }
  }

  lemma {:induction false} FindWorkerLead(s: State, q: nat, local: nat, required: string, index: int, c: Connect)
    requires Wf(s) && q < |s.workers| && local < s.threads && -1 <= index
    ensures Lead(s, FindWorker(s, q, local, required, index).s, c)
    decreases s.threads - index
  {
    hide Grounded, Lead, ScanWorkers;
    LeadRefl(s, c);
    if index < s.threads {
      if index == local {
        FindWorkerLead(s, q, local, required, index + 1, c);
      } else {
        ScanWorkersLead(s, q, LoopAt(index, local), required, 0, c);
        match ScanWorkers(s, q, LoopAt(index, local), required, 0)
        case FoundWorker(t, l, i) =>
        case NoWorker(t) =>
          FindWorkerLead(t, q, local, required, index + 1, c);
          LeadTrans(s, t, FindWorker(t, q, local, required, index + 1).s, c);
      }
    }
  }

  // Results

  lemma ReleasedFollows(v: Conn)
    ensures Follows(v, Released(v), true)
  {
  }

  lemma WorkerResultNoidLead(s: State, w: Connect)
    requires Wf(s) && w in s.conns
    ensures Lead(s, WorkerResultNoid(s, w).s, w)
  {
    hide Wf, Grounded, ConnsLive, Lead, Released, Unlink, SetStatus, Send, Follows, Upd;
    var v := s.conns[w];
    if v.client.None? {
      SameLead(s, s.(fault := true), w);
    } else {
      ConnIsLive(s, w);
      var c := v.client.value;
      ReleasedFollows(v);
      UpdLead(s, w, Released(v), w);
      UpdKeys(s, w, Released(v));
      var t := Upd(s, w, Released(v));
      UnlinkLead(t, c, w);
      var u := Unlink(t, c);
      LeadTrans(s, t, u, w);
      if !u.conns[c].closed {
        RestLead(u, c, w);
        LeadTrans(s, u, SetStatus(u, c, Net), w);
        StatusKeys(u, c, Net);
        SendLead(SetStatus(u, c, Net), c, Answer(v.body), w);
        LeadTrans(s, SetStatus(u, c, Net), Send(SetStatus(u, c, Net), c, Answer(v.body)), w);
      }
    }
  }

  lemma UpdKeys(s: State, c: Connect, v: Conn)
    requires c in s.conns
    ensures Upd(s, c, v).conns.Keys == s.conns.Keys
  {
  }

  lemma StatusKeys(s: State, c: Connect, status: Status)
    requires c in s.conns
    ensures SetStatus(s, c, status).conns.Keys == s.conns.Keys
  {
  }
}
