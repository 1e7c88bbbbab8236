/** Who gets a job in a step, which job it is, and who is told that one was accepted. */
module Deliveries {
  import opened Connections
  import opened Deques
  import opened Names
  import opened BrokerState
  import opened Common
  import opened ClientRequests
  import opened WorkerRequests
  import opened Sessions
  import opened Ledger
  import opened Invariants
  import CallProofs
  import WorkerProofs
  import RequestProofs
  import SessionProofs
  import opened Order
  import opened OrderProofs
  import OrderWorkers
  import Runs
  import opened Leads

  /** The reply brings a worker the message as it was queued in a; its client waited there, and is busy in b. */
  predicate Carries(a: map<Connect, Conn>, b: map<Connect, Conn>, m: Msg, noid: bool, reply: Reply) {
    match m.conn
    case None => reply == AsyncTask(JobOf(m))
    case Some(c) =>
      && c in a && c in b && a[c].status == ClientWaitResult && b[c].status == Busy
      && reply == if noid then Task(a[c].name, a[c].body) else TaskWithId(b[c].id, a[c].name, a[c].body)
  }

  /** The message goes before everything in d that suits a worker of this id. */
  predicate Foremost(m: Msg, d: seq<Msg>, id: string) {
    forall x :: x in d && Suits(x.required, id) ==> Precedes(m, x)
  }

  /** The reply brings w the message at this place in s, and none that is left there should have come first. */
  ghost predicate FirstAt(s: State, t: State, w: Connect, q: int, l: int, i: int, reply: Reply) {
    && 0 <= q < |s.clients| && 0 <= l < |s.clients[q]| && 0 <= i < |s.clients[q][l]|
    && q < |t.clients| && l < |t.clients[q]| && w in t.conns
    && TakenBy(s.conns, t.conns, w, s.clients[q][l][i], t.clients[q][l], reply)
  }

  predicate TakenBy(a: map<Connect, Conn>, b: map<Connect, Conn>, w: Connect, m: Msg, left: seq<Msg>, reply: Reply)
    requires w in b
  {
    && m.conn != Some(w) && m !in left && Suits(m.required, b[w].connectionId)
    && Carries(a, b, m, b[w].noid, reply)
    && Foremost(m, left, b[w].connectionId)
  }

  ghost predicate FromQueue(s: State, t: State, w: Connect, reply: Reply) {
    exists q, l, i :: FirstAt(s, t, w, q, l, i, reply)
  }

  /** Only w may have got jobs, and each was first in its deque; nobody was told that a job was accepted. */
  ghost predicate Brought(s: State, t: State, w: Connect) {
    && s.conns.Keys == t.conns.Keys && t.accepted == s.accepted
    && (forall x :: x in s.conns && x != w ==> Grows(s.conns[x].out, t.conns[x].out))
    && (w in s.conns ==> Fed(s, t, w, s.conns[w].out, t.conns[w].out))
  }

  ghost predicate Fed(s: State, t: State, w: Connect, out: seq<Reply>, longer: seq<Reply>) {
    && out <= longer
    && (forall k :: |out| <= k < |longer| ==> !longer[k].AsyncAccepted?)
    && (forall k :: |out| <= k < |longer| && IsJob(longer[k]) ==> FromQueue(s, t, w, longer[k]))
  }

  lemma LeadBrings(s: State, t: State, w: Connect)
    requires Lead(s, t, w)
    ensures Brought(s, t, w)
  {
    hide Fewer, EntriesStay, Alike, FromQueue;
    forall x | x in s.conns ensures Grows(s.conns[x].out, t.conns[x].out) {
      assert Follows(s.conns[x], t.conns[x], x == w);
    }
  }

  /** Whoever was served at the end was served first. */
  lemma LeadBrought(s: State, t: State, u: State, w: Connect)
    requires Lead(s, t, w) && Brought(t, u, w) && w in s.conns
    ensures Brought(s, u, w)
  {
    hide Lead, FromQueue, Grows, IsJob;
    LeadBrings(s, t, w);
    forall x | x in s.conns && x != w ensures Grows(s.conns[x].out, u.conns[x].out) {
      GrowsOn(s.conns[x].out, t.conns[x].out, u.conns[x].out);
    }
    var out, mid, longer := s.conns[w].out, t.conns[w].out, u.conns[w].out;
    forall k | |out| <= k < |longer|
      ensures !longer[k].AsyncAccepted? && (IsJob(longer[k]) ==> FromQueue(s, u, w, longer[k]))
    {
      if k < |mid| {
        assert longer[k] == mid[k];
        NoneFed(s, t, w, k);
      } else if IsJob(longer[k]) {
        SameSource(s, t, u, w, longer[k]);
      }
    }
  }

  lemma GrowsOn(a: seq<Reply>, b: seq<Reply>, c: seq<Reply>)
    requires Grows(a, b) && Grows(b, c)
    ensures Grows(a, c)
  {
  }

  lemma NoneFed(s: State, t: State, w: Connect, k: nat)
    requires Lead(s, t, w) && w in s.conns && |s.conns[w].out| <= k < |t.conns[w].out|
    ensures !t.conns[w].out[k].AsyncAccepted? && !IsJob(t.conns[w].out[k])
  {
    hide Fewer, EntriesStay, Alike;
    assert Follows(s.conns[w], t.conns[w], w == w);
  }

  lemma SameSource(s: State, t: State, u: State, w: Connect, reply: Reply)
    requires Lead(s, t, w) && FromQueue(t, u, w, reply)
    ensures FromQueue(s, u, w, reply)
  {
    hide AllFollow, EntriesStay, TakenBy;
    var q, l, i :| FirstAt(t, u, w, q, l, i, reply);
    var m := t.clients[q][l][i];
    assert SomeOf(s.clients, q, l, t.clients[q][l]);
    assert m in t.clients[q][l];
    var j :| 0 <= j < |s.clients[q][l]| && s.clients[q][l][j] == m;
    TakenEarlier(s.conns, t.conns, u.conns, w, m, u.clients[q][l], reply);
    assert FirstAt(s, u, w, q, l, j, reply);
  }

  lemma TakenEarlier(a: map<Connect, Conn>, b: map<Connect, Conn>, c: map<Connect, Conn>,
                     w: Connect, m: Msg, left: seq<Msg>, reply: Reply)
    requires AllFollow(a, b, w) && w in c && TakenBy(b, c, w, m, left, reply)
    ensures TakenBy(a, c, w, m, left, reply)
  {
    hide Grows, Ready, Foremost;
    if m.conn.Some? {
      assert Follows(a[m.conn.value], b[m.conn.value], m.conn.value == w);
    }
  }

  /** u differs from t in nothing that counts here. */
  ghost predicate SameSeen(t: State, u: State, w: Connect) {
    && u.clients == t.clients && u.accepted == t.accepted && u.conns.Keys == t.conns.Keys
    && (forall x :: x in t.conns && x != w ==> u.conns[x] == t.conns[x])
    && (w in t.conns ==> EnlistKeeps(t.conns[w], u.conns[w]))
  }

  lemma BroughtSeen(s: State, t: State, u: State, w: Connect)
    requires Brought(s, t, w) && SameSeen(t, u, w) && w in s.conns
    ensures Brought(s, u, w)
  {
    hide FromQueue, Grows;
    forall r | FromQueue(s, t, w, r) ensures FromQueue(s, u, w, r) {
      SeenSource(s, t, u, w, r);
    }
  }

  lemma SeenSource(s: State, t: State, u: State, w: Connect, reply: Reply)
    requires SameSeen(t, u, w) && FromQueue(s, t, w, reply)
    ensures FromQueue(s, u, w, reply)
  {
    hide Foremost;
    var q, l, i :| FirstAt(s, t, w, q, l, i, reply);
    assert FirstAt(s, u, w, q, l, i, reply);
  }

  // Taking a message

  lemma LeftForemost(d: seq<Msg>, i: nat, id: string, stamp: nat)
    requires SortedDeque(d, stamp) && i < |d|
    requires forall k :: 0 <= k < i ==> !Suits(d[k].required, id)
    ensures Foremost(d[i], RemoveAt(d, i), id)
  {
    hide Suits, Precedes;
    var e := RemoveAt(d, i);
    forall x | x in e && Suits(x.required, id) ensures Precedes(d[i], x) {
      var j :| 0 <= j < |e| && e[j] == x;
      assert e[j] == d[if j < i then j else j + 1];
    }
  }

  lemma FirstHasLeft(m: Msg, left: seq<Msg>, id: string)
    requires Foremost(m, left, id) && Suits(m.required, id)
    ensures m !in left
  {
    assert m in left ==> Precedes(m, m);
  }

  /** One reply to w, which brings it this message. */
  ghost predicate OneReply(s: State, t: State, w: Connect, q: nat, l: nat, i: nat, reply: Reply)
    requires w in s.conns && w in t.conns
  {
    && s.conns.Keys == t.conns.Keys && t.accepted == s.accepted
    && (forall x :: x in s.conns && x != w ==> t.conns[x].out == s.conns[x].out)
    && t.conns[w].out == s.conns[w].out + [reply] && !reply.AsyncAccepted?
    && FirstAt(s, t, w, q, l, i, reply)
  }

  lemma OneReplyBrings(s: State, t: State, w: Connect, q: nat, l: nat, i: nat, reply: Reply)
    requires w in s.conns && w in t.conns && OneReply(s, t, w, q, l, i, reply)
    ensures Brought(s, t, w)
  {
    assert FromQueue(s, t, w, reply);
    hide FromQueue, FirstAt;
  }

  /** What taking the message changes in the connections. */
  lemma TakeAsyncConns(s: State, q: nat, l: nat, i: nat, w: Connect)
    requires Wf(s) && q < |s.clients| && l < |s.clients[q]| && i < |s.clients[q][l]| && w in s.conns
    requires s.clients[q][l][i].conn.None?
    ensures var t := Take(s, q, l, i, w); var v := s.conns[w];
      && t.conns == s.conns[w := Served(v, StatusAfterAsync(v), AsyncTask(JobOf(s.clients[q][l][i])))]
      && t.clients == SetAt(s.clients, q, l, RemoveAt(s.clients[q][l], i))
      && t.workers == s.workers && t.accepted == s.accepted
  {
    hide Wf, Grounded, ConnsLive, SetAt, RemoveAt;
  }

  lemma TakeSyncConns(s: State, q: nat, l: nat, i: nat, w: Connect, c: Connect)
    requires Wf(s) && q < |s.clients| && l < |s.clients[q]| && i < |s.clients[q][l]| && w in s.conns && c in s.conns
    requires s.clients[q][l][i].conn == Some(c) && c != w
    ensures var t := Take(s, q, l, i, w); var v, u := s.conns[w], s.conns[c];
      && c in t.conns && w in t.conns && t.conns == s.conns[w := t.conns[w]][c := t.conns[c]]
      && t.conns[w].out == v.out + [if v.noid then Task(u.name, u.body) else TaskWithId(u.id, u.name, u.body)]
      && t.conns[w].connectionId == v.connectionId && t.conns[w].noid == v.noid && t.conns[w].status != WorkerWaitJob
      && t.conns[c].out == u.out && t.conns[c].id == u.id && t.conns[c].status == Busy
      && t.clients == SetAt(s.clients, q, l, RemoveAt(s.clients[q][l], i))
      && t.workers == s.workers && t.accepted == s.accepted
  {
    hide Wf, Grounded, ConnsLive, SetAt, RemoveAt, TakeSync, EraseMessage;
    EraseMessageWf(s, q, l, i);
    var e := EraseMessage(s, q, l, i);
    WorkerProofs.ErasedConns(s, q, l, i, c);
    ErasedParts(s, q, l, i);
    var x := s.conns[c].(link := s.conns[c].link - 1);
    TakenParts(e, w, c);
    var t := TakeSync(e, w, c);
    assert Take(s, q, l, i, w) == t;
    hide Take;
    TwiceAround(s.conns, c, x, w, t.conns[w], t.conns[c]);
  }

  lemma TwiceAround(conns: map<Connect, Conn>, c: Connect, x: Conn, w: Connect, v: Conn, u: Conn)
    requires c != w && w in conns
    ensures conns[c := x][w := v][c := u] == conns[w := v][c := u] && conns[c := x][w] == conns[w]
  {
  }

  lemma ErasedParts(s: State, q: nat, l: nat, i: nat)
    requires q < |s.clients| && l < |s.clients[q]| && i < |s.clients[q][l]| && MsgLive(s.clients[q][l][i], s.conns.Keys)
    ensures var t := EraseMessage(s, q, l, i);
      && t.clients == SetAt(s.clients, q, l, RemoveAt(s.clients[q][l], i))
      && t.workers == s.workers && t.accepted == s.accepted
  {
    hide SetAt, RemoveAt;
  }

  lemma TakenParts(e: State, w: Connect, c: Connect)
    requires w in e.conns && c in e.conns && w != c
    ensures var t := TakeSync(e, w, c); var v, u := e.conns[w], e.conns[c];
      && w in t.conns && c in t.conns && t.conns == e.conns[w := t.conns[w]][c := t.conns[c]]
      && t.conns[w].out == v.out + [if v.noid then Task(u.name, u.body) else TaskWithId(u.id, u.name, u.body)]
      && t.conns[w].connectionId == v.connectionId && t.conns[w].noid == v.noid && t.conns[w].status != WorkerWaitJob
      && t.conns[c].out == u.out && t.conns[c].id == u.id && t.conns[c].status == Busy
      && t.clients == e.clients && t.workers == e.workers && t.accepted == e.accepted
  {
  }

  /** Only this worker may have lost its place, because it is busy now. */
  ghost predicate PostsKept(s: State, t: State, w: Connect) {
    forall x :: x in s.conns && x != w && Posted(s, x) ==> x in t.conns && Posted(t, x)
  }

  lemma TakeAsyncBrings(s: State, q: nat, l: nat, i: nat, w: Connect)
    requires Wf(s) && q < |s.clients| && l < |s.clients[q]| && i < |s.clients[q][l]| && w in s.conns
    requires s.clients[q][l][i].conn.None? && SortedDeque(s.clients[q][l], s.stamp)
    requires Suits(s.clients[q][l][i].required, s.conns[w].connectionId)
    requires forall k :: 0 <= k < i ==> !Suits(s.clients[q][l][k].required, s.conns[w].connectionId)
    ensures var t := Take(s, q, l, i, w);
      Brought(s, t, w) && PostsKept(s, t, w) && w in t.conns && !Ready(t.conns[w])
  {
    hide Wf, Grounded, ConnsLive, Take, SetAt, RemoveAt, Suits, Foremost, SortedDeque;
    TakeAsyncConns(s, q, l, i, w);
    var t := Take(s, q, l, i, w);
    var d := s.clients[q][l];
    LeftForemost(d, i, s.conns[w].connectionId, s.stamp);
    FirstHasLeft(d[i], RemoveAt(d, i), s.conns[w].connectionId);
    assert FirstAt(s, t, w, q, l, i, AsyncTask(JobOf(d[i])));
    OneReplyBrings(s, t, w, q, l, i, AsyncTask(JobOf(d[i])));
  }

  lemma TakeSyncBrings(s: State, q: nat, l: nat, i: nat, w: Connect, c: Connect)
    requires Wf(s) && q < |s.clients| && l < |s.clients[q]| && i < |s.clients[q][l]| && w in s.conns && c in s.conns
    requires s.clients[q][l][i].conn == Some(c) && c != w && s.conns[c].status == ClientWaitResult
    requires SortedDeque(s.clients[q][l], s.stamp)
    requires Suits(s.clients[q][l][i].required, s.conns[w].connectionId)
    requires forall k :: 0 <= k < i ==> !Suits(s.clients[q][l][k].required, s.conns[w].connectionId)
    ensures var t := Take(s, q, l, i, w);
      Brought(s, t, w) && PostsKept(s, t, w) && w in t.conns && !Ready(t.conns[w])
  {
    hide Wf, Grounded, ConnsLive, Take, SetAt, RemoveAt, Suits, Foremost, SortedDeque;
    TakeSyncConns(s, q, l, i, w, c);
    var t := Take(s, q, l, i, w);
    var d, u := s.clients[q][l], s.conns[c];
    LeftForemost(d, i, s.conns[w].connectionId, s.stamp);
    FirstHasLeft(d[i], RemoveAt(d, i), s.conns[w].connectionId);
    var reply := if s.conns[w].noid then Task(u.name, u.body) else TaskWithId(u.id, u.name, u.body);
    assert FirstAt(s, t, w, q, l, i, reply);
    OneReplyBrings(s, t, w, q, l, i, reply);
  }

  // Registering

  /** What serving w has come to. */
  ghost predicate Outcome(s: State, t: State, w: Connect) {
    Brought(s, t, w) && PostsKept(s, t, w) && w in t.conns && Posted(t, w)
  }

  lemma LeadPosts(s: State, t: State, w: Connect)
    requires Lead(s, t, w)
    ensures PostsKept(s, t, w)
  {
    hide Lead, Posted;
    forall x | x in s.conns && x != w && Posted(s, x) ensures x in t.conns && Posted(t, x) {
      LeadPosted(s, t, w, x);
    }
  }

  lemma LeadOutcome(s: State, t: State, u: State, w: Connect)
    requires Lead(s, t, w) && Outcome(t, u, w) && w in s.conns
    ensures Outcome(s, u, w)
  {
    hide Lead, Posted, Brought;
    LeadBrought(s, t, u, w);
    LeadPosts(s, t, w);
    LeadKeys(s, t, w);
  }

  lemma LeadKeys(s: State, t: State, w: Connect)
    requires Lead(s, t, w)
    ensures s.conns.Keys == t.conns.Keys
  {
  }

  lemma EnlistedOutcome(s: State, t: State, w: Connect, q: nat, name: string)
    requires Brought(s, t, w) && PostsKept(s, t, w) && w in s.conns && w in t.conns && !Ready(t.conns[w])
    requires q < |t.lists|
    ensures Outcome(s, Enlist(t, q, w, name), w)
  {
    hide Brought, Posted, Enlist, Lead, Ready, EnlistKeeps;
    var u := Enlist(t, q, w, name);
    EnlistLead(t, q, w, name);
    assert u.accepted == t.accepted && u.conns.Keys == t.conns.Keys by {
      EnlistedConns(t, q, w, name);
    }
    BroughtSeen(s, t, u, w);
    LeadPosts(t, u, w);
    StillBusy(t.conns[w], u.conns[w]);
    assert Posted(u, w) by { NotReadyPosted(u, w); }
  }

  lemma StillBusy(u: Conn, v: Conn)
    requires EnlistKeeps(u, v) && !Ready(u)
    ensures !Ready(v)
  {
  }

  lemma NotReadyPosted(s: State, w: Connect)
    requires w in s.conns && !Ready(s.conns[w])
    ensures Posted(s, w)
  {
  }

  /** A worker that found nothing is parked, and then enlisted. */
  lemma ParkedOutcome(s: State, q: nat, w: Connect, name: string)
    requires Wf(s) && q < |s.workers| && w in s.conns && q < |Park(s, q, w).lists|
    ensures w in Park(s, q, w).conns
    ensures Lead(s, Enlist(Park(s, q, w), q, w, name), w) && Outcome(s, Enlist(Park(s, q, w), q, w, name), w)
  {
    hide Wf, Grounded, ConnsLive, Lead, Park, Enlist, Brought, PostsKept, Ready;
    ParkLead(s, q, w);
    var p := Park(s, q, w);
    EnlistLead(p, q, w, name);
    var t := Enlist(p, q, w, name);
    LeadTrans(s, p, t, w);
    LeadBrings(s, t, w);
    LeadPosts(s, t, w);
    SameReadiness(p.conns[w], t.conns[w]);
    assert Posted(t, w);
  }

  lemma SameReadiness(u: Conn, v: Conn)
    requires EnlistKeeps(u, v)
    ensures Ready(v) == Ready(u) && v.nloop == u.nloop
  {
  }

  lemma ServeOutcome(d: State, q: nat, w: Connect, name: string, rnd: Entropy)
    requires Orderly(d) && Wf(d) && SaneBut(d, w) && Idle(d.conns[w]) && q < |d.lists| && d.conns[w].connectionId != ""
    ensures var r := Serve(d, q, w, name, rnd);
      Outcome(d, r.s, w) && (!r.taken ==> Lead(d, r.s, w))
  {
    hide Orderly, Balanced, ConnOk, Grounded, FindMessage, Take, Park, Enlist, Outcome, Lead, Idle, Precedes, Suits;
    WorkerProofs.ConnHome(d, w);
    FindMessageLead(d, q, d.conns[w].nloop, w, -1, rnd);
    OrderWorkers.FindMessageOrderly(d, q, d.conns[w].nloop, w, -1, rnd);
    WorkerProofs.FindMessageSane(d, q, d.conns[w].nloop, w, -1, rnd);
    match FindMessage(d, q, d.conns[w].nloop, w, -1, rnd)
    case FoundMessage(t, l, i) =>
      WorkerProofs.IdleDoesNotWait(d.conns[w]);
      FoundOutcome(t, q, l, i, w, name);
      LeadOutcome(d, t, Serve(d, q, w, name, rnd).s, w);
    case NoMessage(t) =>
      ParkWf(t, q, w);
      ParkedOutcome(t, q, w, name);
      LeadTrans(d, t, Serve(d, q, w, name, rnd).s, w);
      LeadOutcome(d, t, Serve(d, q, w, name, rnd).s, w);
  }

  lemma FoundOutcome(t: State, q: nat, l: nat, i: nat, w: Connect, name: string)
    requires Orderly(t) && Wf(t) && q < |t.clients| == |t.lists| && l < |t.clients[q]| && i < |t.clients[q][l]|
    requires w in t.conns
    requires MsgLive(t.clients[q][l][i], t.conns.Keys) && WorkerProofs.Takes(t, t.clients[q][l][i], w)
    requires t.conns[w].status != ClientWaitResult
    requires Suits(t.clients[q][l][i].required, t.conns[w].connectionId)
    requires forall k :: 0 <= k < i ==> !Suits(t.clients[q][l][k].required, t.conns[w].connectionId)
    ensures w in Take(t, q, l, i, w).conns && q < |Take(t, q, l, i, w).lists|
    ensures Outcome(t, Enlist(Take(t, q, l, i, w), q, w, name), w)
  {
    hide Wf, Grounded, ConnsLive, Take, Enlist, Outcome, Brought, PostsKept, Suits, SortedDeque, Registered, Unmatched;
    TakeWf(t, q, l, i, w);
    assert SortedDeque(t.clients[q][l], t.stamp);
    if t.clients[q][l][i].conn.None? {
      TakeAsyncBrings(t, q, l, i, w);
    } else {
      TakeSyncBrings(t, q, l, i, w, t.clients[q][l][i].conn.value);
    }
    EnlistedOutcome(t, Take(t, q, l, i, w), w, q, name);
  }

  lemma AddWorkerOutcome(s: State, w: Connect, name: string, rnd: Entropy)
    requires Orderly(s) && Wf(s) && SaneBut(s, w) && Idle(s.conns[w])
    ensures var r := AddWorker(s, w, name, rnd);
      Outcome(s, r.s, w) && (!r.taken ==> Lead(s, r.s, w))
  {
    hide Orderly, Balanced, ConnOk, Grounded, Idle, Serve, Prepare, Outcome, Lead;
    var n := StripSlash(name);
    OrderWorkers.PrepareOrderly(s, w, n, rnd);
    WorkerProofs.PrepareSane(s, w, n, rnd);
    PrepareLead(s, w, n, rnd);
    var d := Prepare(s, w, n, rnd);
    ServeOutcome(d, OpenedQueue(s, n), w, n, rnd);
    var r := AddWorker(s, w, name, rnd);
    LeadOutcome(s, d, r.s, w);
    if !r.taken {
      LeadTrans(s, d, r.s, w);
    }
  }

  lemma {:induction false} AddWorkersOutcome(s: State, w: Connect, names: seq<string>, rnd: Entropy)
    requires Orderly(s) && Wf(s) && SaneBut(s, w) && Idle(s.conns[w]) && names != []
    ensures Outcome(s, AddWorkers(s, w, names, rnd), w)
    decreases |names|
  {
    hide Orderly, Balanced, ConnOk, Grounded, Idle, AddWorker, Outcome, Lead;
    OrderWorkers.AddWorkerOrderly(s, w, names[0], rnd);
    WorkerProofs.AddWorkerSane(s, w, names[0], rnd);
    AddWorkerOutcome(s, w, names[0], rnd);
    var r := AddWorker(s, w, names[0], rnd);
    if !r.taken && names[1..] != [] {
      AddWorkersOutcome(r.s, w, names[1..], rnd);
      LeadOutcome(s, r.s, AddWorkers(s, w, names, rnd), w);
    }
  }

  // Dispatching

  /** What a call brings the worker x. */
  function CallReply(s: State, t: State, c: Connect, name: string, x: Connect): Reply
    requires c in s.conns && c in t.conns && x in s.conns
  {
    var v := s.conns[c];
    if v.noResponse then AsyncTask(Job(s.stamp, name, v.body))
    else if s.conns[x].noid then Task(name, v.body)
    else TaskWithId(t.conns[c].id, name, v.body)
  }

  /** What becomes of the two connections and the deques when w, just erased, serves the call or is put back. */
  ghost predicate Dispatched(e: State, t: State, q: nat, w: Connect, c: Connect, name: string) {
    && w in e.conns && c in e.conns && w != c && t.conns.Keys == e.conns.Keys && q < |e.workers|
    && (forall x :: x in e.conns && x != w && x != c ==> t.conns[x] == e.conns[x])
    && t.conns[w].connectionId == e.conns[w].connectionId && t.conns[w].nloop == e.conns[w].nloop
    && !Ready(t.conns[c])
    && (if e.conns[c].noResponse then
          && t.accepted == e.accepted + multiset{Job(e.stamp, name, e.conns[c].body)}
          && t.conns[c].out == e.conns[c].out + [AsyncAccepted]
        else
          t.accepted == e.accepted && Grows(e.conns[c].out, t.conns[c].out))
    && (GoesTo(e, t, w, c, name) || PutBack(e, t, q, w, c))
  }

  ghost predicate GoesTo(e: State, t: State, w: Connect, c: Connect, name: string)
    requires w in e.conns && c in e.conns && t.conns.Keys == e.conns.Keys
  {
    && t.conns[w].out == e.conns[w].out + [CallReply(e, t, c, name, w)]
    && t.workers == e.workers && !Ready(t.conns[w])
  }

  ghost predicate PutBack(e: State, t: State, q: nat, w: Connect, c: Connect)
    requires w in e.conns && c in e.conns && t.conns.Keys == e.conns.Keys && q < |e.workers|
  {
    && t.conns[w].out == e.conns[w].out && !e.conns[c].noResponse
    && var l := e.conns[w].nloop;
      l < |e.workers[q]| && t.workers == SetAt(e.workers, q, l, InsertAt(e.workers[q][l], 0, w))
  }

  lemma AsyncDispatched(e: State, q: nat, w: Connect, c: Connect, name: string)
    requires w in e.conns && c in e.conns && w != c && q < |e.workers| && e.conns[c].noResponse && !Ready(e.conns[c])
    ensures Dispatched(e, DispatchAsync(e, w, c, name), q, w, c, name)
  {
  }

  lemma LinkedDispatched(e: State, q: nat, w: Connect, c: Connect, name: string)
    requires w in e.conns && c in e.conns && w != c && q < |e.workers| && !e.conns[c].noResponse && e.conns[w].noid
    ensures Dispatched(e, DispatchLinked(e, w, c, name), q, w, c, name)
  {
  }

  lemma IdDispatched(e: State, q: nat, w: Connect, c: Connect, name: string, rnd: Entropy)
    requires w in e.conns && c in e.conns && w != c && q < |e.workers| && !e.conns[c].noResponse && !e.conns[w].noid
    ensures Dispatched(e, DispatchWithId(ResolveId(e, c, rnd), w, c, name), q, w, c, name)
  {
    hide ResolvedId;
    var u := ResolveId(e, c, rnd);
    assert u.conns == e.conns[c := e.conns[c].(id := ResolvedId(e, c, rnd))];
    WithIdParts(u, w, c, name);
    hide DispatchWithId;
  }

  lemma WithIdParts(u: State, w: Connect, c: Connect, name: string)
    requires w in u.conns && c in u.conns && w != c
    ensures var t := DispatchWithId(u, w, c, name); var v, x := u.conns[w], u.conns[c];
      && t.conns == u.conns[w := ServedWithId(v, c, TaskWithId(x.id, name, x.body))][c := Called(x, LinksGiven(v))]
      && t.accepted == u.accepted && t.workers == u.workers
  {
  }

  lemma BackDispatched(e: State, q: nat, w: Connect, c: Connect, name: string, rnd: Entropy)
    requires Wf(e) && w in e.conns && c in e.conns && w != c && q < |e.workers| && !e.conns[c].noResponse
    requires !Ready(e.conns[c])
    requires Wf(ResolveId(e, c, rnd))
    ensures Dispatched(e, Rollback(ResolveId(e, c, rnd), q, w, c), q, w, c, name)
  {
    hide ResolvedId, ResolveId, Wf, Grounded, ConnsLive, SetAt, InsertAt, Rollback;
    HasLoop(e, q, w);
    var u := ResolveId(e, c, rnd);
    ResolvedParts(e, c, rnd);
    BackParts(u, q, w, c);
  }

  lemma ResolvedParts(e: State, c: Connect, rnd: Entropy)
    requires c in e.conns
    ensures var u := ResolveId(e, c, rnd);
      u.conns == e.conns[c := e.conns[c].(id := ResolvedId(e, c, rnd))] && u.workers == e.workers
      && u.accepted == e.accepted
  {
    hide ResolvedId;
  }

  lemma BackParts(u: State, q: nat, w: Connect, c: Connect)
    requires Wf(u) && w in u.conns && c in u.conns && w != c && q < |u.workers|
    ensures var t := Rollback(u, q, w, c); var v, x := u.conns[w], u.conns[c]; var l := v.nloop;
      && l < |u.workers[q]|
      && t.conns == u.conns[w := v.(link := v.link + 1)][c := if x.closed then x else Told(x, CollisionId)]
      && t.accepted == u.accepted && t.workers == SetAt(u.workers, q, l, InsertAt(u.workers[q][l], 0, w))
  {
    HasLoop(u, q, w);
    hide Wf, Grounded, ConnsLive, SetAt, InsertAt;
  }

  lemma DispatchIsDone(s: State, q: nat, l: nat, i: nat, c: Connect, name: string, rnd: Entropy)
    requires Wf(s) && q < |s.workers| && l < s.threads && l < |s.workers[q]| && i < |s.workers[q][l]| && c in s.conns
    requires s.workers[q][l][i] in s.conns && s.workers[q][l][i] != c && !Ready(s.conns[c])
    ensures var e := EraseWorker(s, q, l, i);
      Dispatched(e, Dispatch(s, q, l, i, c, name, rnd), q, s.workers[q][l][i], c, name)
  {
    hide Wf, Grounded, ConnsLive, EraseWorker, Dispatched, DispatchAsync, DispatchLinked, DispatchWithId, Rollback;
    hide ResolveId;
    var w := s.workers[q][l][i];
    EraseWorkerWf(s, q, l, i);
    ErasedWorkers(s, q, l, i);
    var e := EraseWorker(s, q, l, i);
    ErasedKeeps(s, q, l, i, c);
    ResolveIdWf(e, c, rnd);
    ResolvedKeeps(e, c, rnd);
    if e.conns[c].noResponse {
      AsyncDispatched(e, q, w, c, name);
    } else if e.conns[w].noid {
      LinkedDispatched(e, q, w, c, name);
    } else {
      IdDispatched(e, q, w, c, name, rnd);
      BackDispatched(e, q, w, c, name, rnd);
    }
  }

  lemma ResolvedKeeps(e: State, c: Connect, rnd: Entropy)
    requires c in e.conns
    ensures var u := ResolveId(e, c, rnd); u.conns.Keys == e.conns.Keys && u.workers == e.workers
  {
  }

  lemma ErasedKeeps(s: State, q: nat, l: nat, i: nat, x: Connect)
    requires q < |s.workers| && l < |s.workers[q]| && i < |s.workers[q][l]| && s.workers[q][l][i] in s.conns
    requires x in s.conns
    ensures var e := EraseWorker(s, q, l, i);
      && x in e.conns && Core(e.conns[x]) == Core(s.conns[x]) && SameCall(s.conns[x], e.conns[x])
      && e.accepted == s.accepted && e.stamp == s.stamp
  {
    hide SetAt, RemoveAt, Core, SameCall;
    var t := SetWorkers(s, q, l, RemoveAt(s.workers[q][l], i));
    UnlinkOnly(t, s.workers[q][l][i]);
    SameCore(s.conns[x], EraseWorker(s, q, l, i).conns[x]);
    UnlinkHistory(t, s.workers[q][l][i]);
    hide Unlink;
  }

  lemma UnlinkHistory(s: State, c: Connect)
    requires c in s.conns
    ensures Unlink(s, c).accepted == s.accepted && Unlink(s, c).stamp == s.stamp
  {
  }

  predicate SameCall(u: Conn, v: Conn) {
    && v.out == u.out && v.noResponse == u.noResponse && v.noid == u.noid && v.body == u.body && v.nloop == u.nloop
    && v.connectionId == u.connectionId && v.requiredWorker == u.requiredWorker && Ready(v) == Ready(u)
  }

  lemma SameCore(u: Conn, v: Conn)
    requires Core(u) == Core(v)
    ensures SameCall(u, v)
  {
    assert Core(u) == u.(link := 0) && Core(v) == v.(link := 0);
  }

  // Calls

  predicate NoNew(workers: Deques<Connect>, left: Deques<Connect>, q: nat) {
    && q < |workers| == |left| && |left[q]| == |workers[q]|
    && (forall l, x :: 0 <= l < |workers[q]| && x in left[q][l] ==> x in workers[q][l])
  }

  lemma NoNewTrans(a: Deques<Connect>, b: Deques<Connect>, c: Deques<Connect>, q: nat)
    requires NoNew(a, b, q) && NoNew(b, c, q)
    ensures NoNew(a, c, q)
  {
  }

  lemma RemovedNoNew(workers: Deques<Connect>, q: nat, l: nat, i: nat)
    requires q < |workers| && l < |workers[q]| && i < |workers[q][l]|
    ensures NoNew(workers, SetAt(workers, q, l, RemoveAt(workers[q][l], i)), q)
  {
    var left := SetAt(workers, q, l, RemoveAt(workers[q][l], i));
    forall k, x | 0 <= k < |workers[q]| && x in left[q][k] ensures x in workers[q][k] {
      assert k != l ==> left[q][k] == workers[q][k];
    }
  }

  lemma {:induction false} ScanNoNew(s: State, q: nat, l: nat, required: string, i: nat)
    requires Wf(s) && q < |s.workers| && l < s.threads && i <= |s.workers[q][l]|
    ensures NoNew(s.workers, ScanWorkers(s, q, l, required, i).s.workers, q)
    decreases |s.workers[q][l]| - i
  {
    hide Grounded, EraseWorker, NoNew;
    assert NoNew(s.workers, s.workers, q) by { SameNoNew(s.workers, q); }
    var d := s.workers[q][l];
    if i < |d| {
      RemoveWorkerWf(s, q, l, i);
      if !Suits(required, s.conns[d[i]].connectionId) {
        ScanNoNew(s, q, l, required, i + 1);
      } else if !Ready(s.conns[d[i]]) {
        EraseWorkerWf(s, q, l, i);
        ErasedWorkers(s, q, l, i);
        RemovedNoNew(s.workers, q, l, i);
        var t := EraseWorker(s, q, l, i);
        ScanNoNew(t, q, l, required, i);
        NoNewTrans(s.workers, t.workers, ScanWorkers(t, q, l, required, i).s.workers, q);
      }
    }
  }

  lemma SameNoNew(workers: Deques<Connect>, q: nat)
    requires q < |workers|
    ensures NoNew(workers, workers, q)
  {
  }

  lemma {:induction false} FindNoNew(s: State, q: nat, local: nat, required: string, index: int)
    requires Wf(s) && q < |s.workers| && local < s.threads && -1 <= index
    ensures NoNew(s.workers, FindWorker(s, q, local, required, index).s.workers, q)
    decreases s.threads - index
  {
    hide Grounded, ScanWorkers, NoNew;
    SameNoNew(s.workers, q);
    if index < s.threads {
      if index == local {
        FindNoNew(s, q, local, required, index + 1);
      } else {
        ScanNoNew(s, q, LoopAt(index, local), required, 0);
        match ScanWorkers(s, q, LoopAt(index, local), required, 0)
        case FoundWorker(t, l, i) =>
        case NoWorker(t) =>
          FindNoNew(t, q, local, required, index + 1);
          NoNewTrans(s.workers, t.workers, FindWorker(t, q, local, required, index + 1).s.workers, q);
      }
    }
  }

  /** x waits in queue q, is ready, and is the worker that c asks for, if it asks for one. */
  ghost predicate Summoned(s: State, t: State, q: nat, c: Connect, x: Connect) {
    && c in s.conns && x in s.conns && x in t.conns
    && Ready(s.conns[x]) && HasEntry(s.workers, q, s.conns[x].nloop, x)
    && Suits(s.conns[c].requiredWorker, t.conns[x].connectionId)
  }

  /** c is told that its job was accepted exactly when it was. */
  ghost predicate CallerTold(s: State, t: State, c: Connect, name: string)
    requires c in s.conns && c in t.conns
  {
    var v := s.conns[c];
    (t.accepted == s.accepted && Grows(v.out, t.conns[c].out))
    || (v.noResponse && t.accepted == s.accepted + multiset{Job(s.stamp, name, v.body)}
        && t.conns[c].out == v.out + [AsyncAccepted])
  }

  ghost predicate OthersHear(s: State, t: State, q: nat, c: Connect, name: string)
    requires c in s.conns && c in t.conns
  {
    forall x :: x in s.conns && x in t.conns && x != c ==>
      || Grows(s.conns[x].out, t.conns[x].out)
      || (Summoned(s, t, q, c, x) && t.conns[x].out == s.conns[x].out + [CallReply(s, t, c, name, x)])
  }

  /** What a call of c in queue q comes to. */
  ghost predicate Asked(s: State, t: State, q: nat, c: Connect, name: string) {
    && s.conns.Keys == t.conns.Keys && c in s.conns
    && CallerTold(s, t, c, name) && OthersHear(s, t, q, c, name)
    && PostsKept(s, t, c) && Posted(t, c)
  }

  lemma EnqueueParts(s: State, q: nat, c: Connect, name: string)
    requires Wf(s) && q < |s.clients| && c in s.conns && s.conns[c].status == Net
    ensures var t := Enqueue(s, q, c, name);
      && c in t.conns && t.conns == s.conns[c := t.conns[c]] && t.workers == s.workers
      && !Ready(t.conns[c]) && CallerTold(s, t, c, name)
  {
    hide Wf, Grounded, ConnsLive, QueueMessage, Send;
    Home(s, q, c);
    OneList(s);
    var v := s.conns[c];
    if v.ifPresent && s.lists[q] == [] {
      SentParts(s, c, NoContent);
    } else if v.noResponse {
      var u := Told(v, AsyncAccepted).(requiredWorker := "", body := "");
      QueuedParts(Upd(s, c, u), q, v.nloop, AsyncMessage(s, v, name));
    } else {
      var u := Called(v, 1).(requiredWorker := "", name := name);
      QueuedParts(Upd(s, c, u), q, v.nloop, SyncMessage(s, c, v));
    }
  }

  lemma OneList(s: State)
    requires Wf(s)
    ensures |s.lists| == |s.clients|
  {
  }

  lemma SentParts(s: State, c: Connect, r: Reply)
    requires c in s.conns && s.conns[c].status == Net && !IsJob(r) && !r.AsyncAccepted?
    ensures var t := Send(s, c, r);
      && c in t.conns && t.conns == s.conns[c := t.conns[c]] && t.workers == s.workers && t.accepted == s.accepted
      && t.conns[c].status == Net && Grows(s.conns[c].out, t.conns[c].out)
  {
  }

  lemma QueuedParts(s: State, q: nat, l: nat, m: Msg)
    requires q < |s.clients| && l < |s.clients[q]|
    ensures var t := QueueMessage(s, q, l, m);
      t.conns == s.conns && t.workers == s.workers && t.accepted == s.accepted
  {
    hide SetAt, Slot, InsertAt;
  }

  lemma SamePosts(s: State, t: State, c: Connect)
    requires c in s.conns && c in t.conns && t.conns == s.conns[c := t.conns[c]] && t.workers == s.workers
    ensures PostsKept(s, t, c)
  {
    forall x | x in s.conns && x != c && Posted(s, x) ensures x in t.conns && Posted(t, x) {
      assert t.conns[x] == s.conns[x];
    }
  }

  /** The scan changes nothing about calls but link counts. */
  lemma ScannedSame(s: State, t: State, x: Connect)
    requires OnlyLinks(s, t) && x in s.conns
    ensures x in t.conns && SameCall(s.conns[x], t.conns[x])
  {
    SameCore(s.conns[x], t.conns[x]);
    hide Core;
  }

  lemma EnqueueAsked(s: State, t: State, q: nat, c: Connect, name: string)
    requires Wf(t) && q < |t.clients| && c in s.conns && OnlyLinks(s, t) && t.accepted == s.accepted
    requires t.stamp == s.stamp
    requires t.conns[c].status == Net && PostsKept(s, t, c)
    ensures Asked(s, Enqueue(t, q, c, name), q, c, name)
  {
    hide Wf, Grounded, ConnsLive, Enqueue, Core, Posted, Grows;
    EnqueueParts(t, q, c, name);
    var u := Enqueue(t, q, c, name);
    SamePosts(t, u, c);
    ScannedSame(s, t, c);
    forall x | x in s.conns && x != c ensures Grows(s.conns[x].out, u.conns[x].out) {
      ScannedSame(s, t, x);
      GrowsRefl(s.conns[x].out);
    }
    NotReadyPosted(u, c);
  }

  lemma GrowsRefl(out: seq<Reply>)
    ensures Grows(out, out)
  {
  }

  /** In the end of a dispatch every worker that was posted still is. */
  lemma DispatchPosts(s: State, t: State, q: nat, l: nat, i: nat, c: Connect, name: string)
    requires q < |s.workers| && l < |s.workers[q]| && i < |s.workers[q][l]| && s.workers[q][l][i] in s.conns
    requires Dispatched(EraseWorker(s, q, l, i), t, q, s.workers[q][l][i], c, name)
    ensures PostsKept(s, t, c) && c in t.conns && Posted(t, c)
  {
    var w, e := s.workers[q][l][i], EraseWorker(s, q, l, i);
    EraseWorkerLead(s, q, l, i, w);
    LeadPosts(s, e, w);
    LeadKeys(s, e, w);
    hide EraseWorker, Lead, Posted, GoesTo, PutBack, CallReply, Grows;
    NotReadyPosted(t, c);
    forall x | x in s.conns && x != c && Posted(s, x) ensures x in t.conns && Posted(t, x) {
      if x == w {
        ServedPosted(e, t, q, w, c, name);
      } else {
        BystanderPosted(e, t, q, w, c, name, x);
      }
    }
  }

  lemma ServedPosted(e: State, t: State, q: nat, w: Connect, c: Connect, name: string)
    requires Dispatched(e, t, q, w, c, name)
    ensures Posted(t, w)
  {
    hide Ready, CallReply, Grows;
    if PutBack(e, t, q, w, c) {
      var l := e.conns[w].nloop;
      assert InsertAt(e.workers[q][l], 0, w)[0] == w;
      assert HasEntry(t.workers, q, l, w);
    }
  }

  lemma BystanderPosted(e: State, t: State, q: nat, w: Connect, c: Connect, name: string, x: Connect)
    requires Dispatched(e, t, q, w, c, name) && x in e.conns && x != w && x != c && Posted(e, x)
    ensures Posted(t, x)
  {
    hide Ready, CallReply, Grows;
    assert t.conns[x] == e.conns[x];
    if Ready(e.conns[x]) && PutBack(e, t, q, w, c) {
      var p :| HasEntry(e.workers, p, e.conns[x].nloop, x);
      var k, l := e.conns[x].nloop, e.conns[w].nloop;
      if p == q && k == l {
        var d := e.workers[q][l];
        var j :| 0 <= j < |d| && d[j] == x;
        assert InsertAt(d, 0, w)[j + 1] == x;
      } else {
        assert t.workers[p][k] == e.workers[p][k];
      }
      assert HasEntry(t.workers, p, k, x);
    }
  }

  /** The worker that was found serves the call, or is put back. */
  lemma DispatchAsked(s: State, t: State, q: nat, l: nat, i: nat, c: Connect, name: string, rnd: Entropy)
    requires Wf(t) && q < |t.workers| && l < t.threads && l < |t.workers[q]| && i < |t.workers[q][l]| && c in s.conns
    requires OnlyLinks(s, t) && t.accepted == s.accepted && t.stamp == s.stamp && PostsKept(s, t, c)
    requires t.conns[c].status == Net && t.workers[q][l][i] in t.conns
    requires var w := t.workers[q][l][i];
      Ready(t.conns[w]) && Suits(s.conns[c].requiredWorker, t.conns[w].connectionId)
      && HasEntry(s.workers, q, t.conns[w].nloop, w)
    ensures Asked(s, Dispatch(t, q, l, i, c, name, rnd), q, c, name)
  {
    hide Wf, Grounded, ConnsLive, EraseWorker, Dispatch, Core, Posted, Grows, SameCall, Asked, Dispatched;
    var w, e, u := t.workers[q][l][i], EraseWorker(t, q, l, i), Dispatch(t, q, l, i, c, name, rnd);
    DispatchIsDone(t, q, l, i, c, name, rnd);
    DispatchPosts(t, u, q, l, i, c, name);
    forall x | x in t.conns ensures x in s.conns && x in e.conns && SameCall(s.conns[x], e.conns[x]) {
      ScannedSame(s, t, x);
      ErasedKeeps(t, q, l, i, x);
      SameCallTrans(s.conns[x], t.conns[x], e.conns[x]);
    }
    ErasedKeeps(t, q, l, i, c);
    assert PostsKept(s, u, c);
    ErasedKeys(t, q, l, i);
    SameCall3(s.conns[w], t.conns[w], e.conns[w]) by { ErasedKeeps(t, q, l, i, w); ScannedSame(s, t, w); }
    DispatchHeard(s, e, u, q, w, c, name);
  }

  lemma SameCallTrans(a: Conn, b: Conn, c: Conn)
    requires SameCall(a, b) && SameCall(b, c)
    ensures SameCall(a, c)
  {
  }

  lemma SameCall3(a: Conn, b: Conn, c: Conn)
    requires SameCall(a, b) && SameCall(b, c)
    ensures Ready(c) == Ready(b) && c.connectionId == b.connectionId && a.nloop == b.nloop
  {
  }

  lemma ErasedKeys(s: State, q: nat, l: nat, i: nat)
    requires q < |s.workers| && l < |s.workers[q]| && i < |s.workers[q][l]| && s.workers[q][l][i] in s.conns
    ensures EraseWorker(s, q, l, i).conns.Keys == s.conns.Keys
  {
    UnlinkLead(SetWorkers(s, q, l, RemoveAt(s.workers[q][l], i)), s.workers[q][l][i], s.workers[q][l][i]);
  }

  lemma DispatchHeard(s: State, e: State, u: State, q: nat, w: Connect, c: Connect, name: string)
    requires Dispatched(e, u, q, w, c, name) && s.conns.Keys == e.conns.Keys
    requires forall x :: x in s.conns ==> SameCall(s.conns[x], e.conns[x])
    requires e.accepted == s.accepted && e.stamp == s.stamp && PostsKept(s, u, c) && Posted(u, c)
    requires Ready(e.conns[w]) && Suits(s.conns[c].requiredWorker, e.conns[w].connectionId)
    requires HasEntry(s.workers, q, s.conns[w].nloop, w)
    ensures Asked(s, u, q, c, name)
  {
    hide Posted, HasEntry, PostsKept, Suits;
    forall x | x in s.conns && x in u.conns && x != c
      ensures Grows(s.conns[x].out, u.conns[x].out)
           || (Summoned(s, u, q, c, x) && u.conns[x].out == s.conns[x].out + [CallReply(s, u, c, name, x)])
    {
      assert SameCall(s.conns[x], e.conns[x]) && SameCall(s.conns[c], e.conns[c]);
    }
    assert SameCall(s.conns[c], e.conns[c]);
  }

  lemma SeekAsked(s: State, q: nat, c: Connect, name: string, rnd: Entropy)
    requires Orderly(s) && Wf(s) && SaneBut(s, c) && q < |s.lists| && s.conns[c].status == Net
    ensures Asked(s, Seek(s, q, c, name, rnd), q, c, name)
  {
    hide Orderly, Wf, Grounded, ConnsLive, Balanced, ConnOk, FindWorker, Dispatch, Enqueue, Asked, Core, Lead;
    hide PostsKept;
    hide HasEntry, Barren, SameCall, Ready;
    var v := s.conns[c];
    Home2(s, q, c);
    FindWorkerOrderly(s, q, v.nloop, v.requiredWorker, -1);
    CallProofs.FindWorkerSane(s, q, v.nloop, v.requiredWorker, -1, c);
    FindWorkerLead(s, q, v.nloop, v.requiredWorker, -1, c);
    FindNoNew(s, q, v.nloop, v.requiredWorker, -1);
    var r := FindWorker(s, q, v.nloop, v.requiredWorker, -1);
    LeadPosts(s, r.s, c);
    LeadHistory(s, r.s, c);
    StillNet(s, r.s, c);
    FrameLines(s, r.s, q);
    match r
    case NoWorker(t) => EnqueueAsked(s, t, q, c, name);
    case FoundWorker(t, l, i) =>
      FoundEntry(s, t, q, l, i);
      DispatchAsked(s, t, q, l, i, c, name, rnd);
  }

  lemma Home2(s: State, q: nat, c: Connect)
    requires Wf(s) && q < |s.lists| && c in s.conns
    ensures q < |s.workers| == |s.clients| && s.conns[c].nloop < s.threads
  {
    ConnIsLive(s, c);
  }

  lemma StillNet(s: State, t: State, c: Connect)
    requires OnlyLinks(s, t) && c in s.conns
    ensures c in t.conns && t.conns[c].status == s.conns[c].status
  {
    assert Core(t.conns[c]) == Core(s.conns[c]);
  }

  lemma LeadHistory(s: State, t: State, w: Connect)
    requires Lead(s, t, w)
    ensures t.accepted == s.accepted && t.stamp == s.stamp
  {
  }

  lemma FoundEntry(s: State, t: State, q: nat, l: nat, i: nat)
    requires Orderly(t) && NoNew(s.workers, t.workers, q) && l < |t.workers[q]| && i < |t.workers[q][l]|
    ensures t.workers[q][l][i] in t.conns
    ensures HasEntry(s.workers, q, t.conns[t.workers[q][l][i]].nloop, t.workers[q][l][i])
  {
    hide Unmatched, Sorted, Accounted, Stamped, Delivered;
    assert Entry(t.conns, t.workers[q][l][i], l);
    assert t.workers[q][l][i] in t.workers[q][l];
  }

  // Requests

  /** What the request r of c brings the worker x. */
  function RequestReply(s: State, t: State, c: Connect, r: Request, x: Connect): Reply
    requires c in t.conns && x in s.conns
  {
    if r.kind == AsyncCall then AsyncTask(Job(s.stamp, r.name, r.body))
    else if s.conns[x].noid then Task(r.name, r.body)
    else TaskWithId(t.conns[c].id, r.name, r.body)
  }

  /** x was ready, waited in the queue the request names, and is the worker it asks for, if it asks for one. */
  ghost predicate Hired(s: State, t: State, c: Connect, r: Request, x: Connect, reply: Reply) {
    && Wf(s) && c in t.conns && x in s.conns && x in t.conns && x != c && r.kind in {Call, AsyncCall}
    && Ready(s.conns[x]) && Suits(r.requiredWorker, t.conns[x].connectionId)
    && (var q := FoundQueue(s, r.name); q.Some? && HasEntry(s.workers, q.value, s.conns[x].nloop, x))
    && reply == RequestReply(s, t, c, r, x)
  }

  /** Every job that x was brought in this step was due to it. */
  ghost predicate OnlyDue(s: State, t: State, c: Connect, r: Request, x: Connect, out: seq<Reply>, longer: seq<Reply>) {
    && out <= longer
    && forall k :: |out| <= k < |longer| && IsJob(longer[k]) ==>
         if x == c then FromQueue(s, t, x, longer[k]) else Hired(s, t, c, r, x, longer[k])
  }

  predicate NoAcceptance(out: seq<Reply>, longer: seq<Reply>) {
    forall k :: |out| <= k < |longer| ==> !longer[k].AsyncAccepted?
  }

  ghost predicate AllDue(s: State, t: State, c: Connect, r: Request) {
    && s.conns.Keys == t.conns.Keys
    && forall x :: x in s.conns ==> OnlyDue(s, t, c, r, x, s.conns[x].out, t.conns[x].out)
  }

  /** A job is accepted exactly when its caller is told so: one job, and one acceptance. */
  ghost predicate Acceptance(s: State, t: State, c: Connect, r: Request) {
    && s.conns.Keys == t.conns.Keys
    && (forall x :: x in s.conns && x != c ==> NoAcceptance(s.conns[x].out, t.conns[x].out))
    && (c in s.conns ==>
         || (t.accepted == s.accepted && NoAcceptance(s.conns[c].out, t.conns[c].out))
         || (r.kind == AsyncCall && t.accepted == s.accepted + multiset{Job(s.stamp, r.name, r.body)}
             && t.conns[c].out == s.conns[c].out + [AsyncAccepted]))
  }

  ghost predicate Answers(s: State, t: State, c: Connect, r: Request) {
    && AllDue(s, t, c, r) && Acceptance(s, t, c, r)
    && c in s.conns && PostsKept(s, t, c) && Posted(t, c)
  }

  lemma OutcomeAnswers(s: State, t: State, c: Connect, r: Request)
    requires Outcome(s, t, c) && c in s.conns
    ensures Answers(s, t, c, r)
  {
    hide PostsKept, Posted, FromQueue, Hired;
  }

  /** The state in which client_request starts. */
  ghost predicate Requested(s: State, b: State, c: Connect, r: Request) {
    && c in s.conns && c in b.conns && b == s.(conns := s.conns[c := b.conns[c]])
    && b.conns[c].out == s.conns[c].out && b.conns[c].noResponse == (r.kind == AsyncCall)
    && b.conns[c].body == r.body && b.conns[c].requiredWorker == r.requiredWorker
    && b.conns[c].status == Net && s.conns[c].status == Net
  }

  lemma AskedAnswers(s: State, b: State, t: State, q: nat, c: Connect, r: Request)
    requires Wf(s) && Requested(s, b, c, r) && Asked(b, t, q, c, r.name) && r.kind in {Call, AsyncCall}
    requires FoundQueue(s, r.name) == Some(q)
    ensures Answers(s, t, c, r)
  {
    hide Wf, FoundQueue, Posted, HasEntry, FromQueue, Suits, Grounded, ConnsLive, Hired, Ready;
    hide OnlyDue, NoAcceptance, PostsKept, CallerTold, OthersHear;
    forall x | x in s.conns && x != c
      ensures OnlyDue(s, t, c, r, x, s.conns[x].out, t.conns[x].out) && NoAcceptance(s.conns[x].out, t.conns[x].out)
    {
      OtherHears(s, b, t, q, c, r, x);
    }
    CallerHears(s, b, t, c, r);
    PostsSame(s, b, t, c);
  }

  lemma OtherHears(s: State, b: State, t: State, q: nat, c: Connect, r: Request, x: Connect)
    requires Wf(s) && Requested(s, b, c, r) && Asked(b, t, q, c, r.name) && r.kind in {Call, AsyncCall}
    requires FoundQueue(s, r.name) == Some(q) && x in s.conns && x != c
    ensures OnlyDue(s, t, c, r, x, s.conns[x].out, t.conns[x].out) && NoAcceptance(s.conns[x].out, t.conns[x].out)
  {
    hide Wf, FoundQueue, Posted, HasEntry, FromQueue, Suits, Grounded, ConnsLive, PostsKept, CallerTold, Ready;
    assert b.conns[x] == s.conns[x];
    assert CallReply(b, t, c, r.name, x) == RequestReply(s, t, c, r, x);
  }

  lemma CallerHears(s: State, b: State, t: State, c: Connect, r: Request)
    requires Requested(s, b, c, r) && c in t.conns && CallerTold(b, t, c, r.name)
    ensures OnlyDue(s, t, c, r, c, s.conns[c].out, t.conns[c].out)
    ensures (t.accepted == s.accepted && NoAcceptance(s.conns[c].out, t.conns[c].out))
         || (r.kind == AsyncCall && t.accepted == s.accepted + multiset{Job(s.stamp, r.name, r.body)}
             && t.conns[c].out == s.conns[c].out + [AsyncAccepted])
  {
    hide FromQueue, Hired, Ready;
  }

  lemma PostsSame(s: State, b: State, t: State, c: Connect)
    requires c in s.conns && c in b.conns && b == s.(conns := s.conns[c := b.conns[c]]) && PostsKept(b, t, c)
    ensures PostsKept(s, t, c)
  {
    forall x | x in s.conns && x != c && Posted(s, x) ensures x in t.conns && Posted(t, x) {
      assert b.conns[x] == s.conns[x] && Posted(b, x);
    }
  }

  lemma ToldAnswers(s: State, b: State, c: Connect, r: Request, reply: Reply)
    requires Requested(s, b, c, r) && !IsJob(reply) && !reply.AsyncAccepted?
    ensures Answers(s, Send(b, c, reply), c, r)
  {
    hide PostsKept, FromQueue, Hired;
    SentParts(b, c, reply);
    var t := Send(b, c, reply);
    hide Send;
    SamePosts(s, t, c) by { assert t.conns == s.conns[c := t.conns[c]]; }
    NotReadyPosted(t, c);
    SendHistory(b, c, reply);
    hide Posted;
  }

  lemma SendHistory(s: State, c: Connect, r: Reply)
    requires c in s.conns
    ensures Send(s, c, r).accepted == s.accepted
  {
  }

  lemma ClientRequestAnswers(s: State, b: State, c: Connect, r: Request, rnd: Entropy)
    requires Requested(s, b, c, r) && Wf(s) && Orderly(b) && Wf(b) && SaneBut(b, c) && r.kind in {Call, AsyncCall}
    ensures Answers(s, ClientRequest(b, c, r.name, rnd), c, r)
  {
    hide Orderly, Wf, Grounded, ConnsLive, Balanced, ConnOk, Seek, Answers, SaneBut, FoundQueue, Closed;
    CountedKeeps(b, c);
    var d := OrderProofs.Counted(b, c);
    assert Requested(s, d, c, r);
    ShapeOf(s);
    ShapeOf(d);
    SameQueues(s, d, r.name);
    match FoundQueue(d, r.name)
    case None => ToldAnswers(s, d, c, r, NotFound);
    case Some(q) =>
      SeekAsked(d, q, c, r.name, rnd);
      AskedAnswers(s, d, Seek(d, q, c, r.name, rnd), q, c, r);
  }

  lemma SameQueues(s: State, d: State, name: string)
    requires Shape(s) && Shape(d) && d.names == s.names && d.lists == s.lists
    ensures FoundQueue(d, name) == FoundQueue(s, name)
  {
  }
}
