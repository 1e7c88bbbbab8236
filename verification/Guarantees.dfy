/** What the broker promises, in every state of every run. */
module Guarantees {
  import opened Connections
  import opened Deques
  import opened BrokerState
  import opened Common
  import opened References
  import opened Ledger
  import opened Invariants
  import opened Sessions
  import opened Order
  import opened Runs
  import opened Leads
  import opened Deliveries
  import opened Replies
  import opened Results
  import OrderProofs
  import LifeProofs
  import Collisions
  import Departures

  ghost predicate Reachable(t: State, threads: nat, events: seq<Event>) {
    threads > 0 && Run(Start(threads), events, t)
  }

  lemma ReachableInv(t: State, threads: nat, events: seq<Event>)
    requires Reachable(t, threads, events)
    ensures Inv(t)
  {
    hide Inv;
    StartInv(threads);
    RunInv(Start(threads), events, t);
  }

  /** The calls of an open connection are answered exactly once each, but for one that is still waiting. */
  lemma OneReplyPerCall(t: State, threads: nat, events: seq<Event>, c: Connect)
    requires Reachable(t, threads, events) && c in t.conns && !t.conns[c].closed
    ensures t.conns[c].calls == Closed(t.conns[c].out) + (if InCall(t.conns[c]) then 1 else 0)
  {
    ReachableInv(t, threads, events);
    hide Balanced, Orderly, Reachable;
  }

  /** A waiting call is in exactly one place; an open connection that does not wait is in none. */
  lemma OnePlacePerCall(t: State, threads: nat, events: seq<Event>, c: Connect)
    requires Reachable(t, threads, events) && c in t.conns && !t.conns[c].closed
    ensures CallersIn(t.clients)[c] + |Waiting(t.wait, c)| + |Serving(t.conns, c)|
         == (if InCall(t.conns[c]) then 1 else 0)
  {
    ReachableInv(t, threads, events);
    hide Orderly, Reachable, Wf, Exact, WaitOk, ItemsOk, Opened, ConnOk, Grounded, ConnsLive;
  }

  /** Reference counts are exact, and the dead list holds exactly the connections nothing points at, once each. */
  lemma LinksAreExact(t: State, threads: nat, events: seq<Event>, c: Connect)
    requires Reachable(t, threads, events) && c in t.conns
    ensures t.conns[c].link == Pointers(t, c)
    ensures multiset(t.dead)[c] == (if t.conns[c].link == 0 then 1 else 0)
    ensures t.conns[c].link == 0 ==> t.conns[c].closed && c !in t.table
  {
    ReachableInv(t, threads, events);
    hide Orderly, Reachable, Wf, Placed, WaitOk, ItemsOk, ConnOk, Grounded, ConnsLive;
  }

  /** No throw is reached, and a worker without ids has a client exactly while it owes a result. */
  lemma NothingThrows(t: State, threads: nat, events: seq<Event>, w: Connect)
    requires Reachable(t, threads, events) && w in t.conns && !t.conns[w].closed
    ensures !t.fault
    ensures t.conns[w].noid ==> (t.conns[w].client.Some? <==> t.conns[w].status == WorkerWaitResult)
    ensures t.conns[w].status == WorkerWaitJob ==> t.conns[w].client.None?
  {
    hide Orderly, Reachable, Wf, Placed, WaitOk, ItemsOk, Grounded, ConnsLive, Run, Step, Start, Closed, Pointers;
    ReachableInv(t, threads, events);
  }

  /** A worker entry and a message of the same queue never suit each other, on whatever loops they are. */
  lemma NoMissedMatch(t: State, threads: nat, events: seq<Event>, q: nat, l: nat, i: nat, k: nat, j: nat)
    requires Reachable(t, threads, events)
    requires q < |t.workers| && l < |t.workers[q]| && i < |t.workers[q][l]|
    requires q < |t.clients| && k < |t.clients[q]| && j < |t.clients[q][k]|
    ensures t.workers[q][l][i] in t.conns
    ensures t.clients[q][k][j].required != ""
    ensures t.clients[q][k][j].required != t.conns[t.workers[q][l][i]].connectionId
  {
    ReachableInv(t, threads, events);
    hide Sane, Reachable, Sorted, Accounted, Stamped, Delivered;
    assert Entry(t.conns, t.workers[q][l][i], l);
    assert Apart(t.conns, t.workers[q][l][i], t.clients[q][k][j]);
  }

  /** Accepted jobs are queued or on exactly one send buffer, a deleted one perhaps, never both and never twice. */
  lemma JobsAreConserved(t: State, threads: nat, events: seq<Event>)
    requires Reachable(t, threads, events)
    ensures t.accepted == Jobs(Flat(t.clients)) + t.handed
    ensures forall job :: job in t.accepted ==> t.accepted[job] == 1
    ensures t.handed == Carried(t.conns) + t.buried
    ensures forall job :: job in t.handed ==> t.handed[job] == 1 && job !in Jobs(Flat(t.clients)) && OnOneBuffer(t, job)
  {
    ReachableInv(t, threads, events);
    hide Sane, Reachable, Sorted, Registered, Unmatched, Jobs, Flat, Carried, OnOneBuffer;
    forall job | job in t.handed ensures t.handed[job] == 1 && job !in Jobs(Flat(t.clients)) && OnOneBuffer(t, job) {
      assert t.accepted[job] == Jobs(Flat(t.clients))[job] + t.handed[job];
      OneBuffer(t, job);
    }
  }

  ghost predicate OnOneBuffer(t: State, job: Job) {
    if job in t.buried then forall c :: c in t.conns ==> job !in Tasks(t.conns[c].out)
    else exists c :: c in t.conns && OnlyOn(t.conns, c, job)
  }

  lemma OneBuffer(t: State, job: Job)
    requires t.handed == Carried(t.conns) + t.buried && t.handed[job] == 1
    ensures OnOneBuffer(t, job)
  {
    hide Carried, Tasks;
    if job in t.buried {
      CarriedNone(t.conns, job);
    } else {
      var c := CarriedOnce(t.conns, job);
    }
  }

  /** No pointer dangles: whatever the broker points at has not been deleted. */
  lemma NothingDangles(t: State, threads: nat, events: seq<Event>)
    requires Reachable(t, threads, events)
    ensures t.table <= t.conns.Keys && (forall id :: id in t.wait ==> t.wait[id] in t.conns)
    ensures forall q, l, i :: 0 <= q < |t.workers| && 0 <= l < |t.workers[q]| && 0 <= i < |t.workers[q][l]| ==>
      t.workers[q][l][i] in t.conns
    ensures forall q, l, i :: 0 <= q < |t.clients| && 0 <= l < |t.clients[q]| && 0 <= i < |t.clients[q][l]| ==>
      MsgLive(t.clients[q][l][i], t.conns.Keys)
    ensures forall q, i :: 0 <= q < |t.lists| && 0 <= i < |t.lists[q]| ==> t.lists[q][i] in t.conns
    ensures forall w :: w in t.conns && t.conns[w].client.Some? ==> t.conns[w].client.value in t.conns
  {
    ReachableInv(t, threads, events);
    InvGrounded(t);
    hide Reachable, Inv, Wf, Grounded, ConnsLive;
    forall w | w in t.conns && t.conns[w].client.Some? ensures t.conns[w].client.value in t.conns {
      assert ConnLive(t.conns[w], t.conns.Keys, |t.lists|, t.threads);
    }
  }

  lemma InvGrounded(t: State)
    requires Inv(t)
    ensures Wf(t) && Grounded(t)
  {
    hide Orderly, Exact, Placed, WaitOk, ItemsOk, Opened, ConnOk;
  }

  lemma {:induction false} RunPosted(s: State, events: seq<Event>, t: State)
    requires Inv(s) && AllPosted(s) && Run(s, events, t)
    ensures AllPosted(t)
    decreases |events|
  {
    hide Sane, Orderly, Step, Enabled, Wf, AllPosted, EveryJobDue, AcceptedIsTold, Grounded, ConnsLive;
    if events != [] {
      LifeProofs.StepSane(s, events[0]);
      StepOrderly(s, events[0]);
      StepDelivers(s, events[0]);
      RunPosted(Step(s, events[0]), events[1..], t);
    }
  }

  lemma ReachablePosted(t: State, threads: nat, events: seq<Event>)
    requires Reachable(t, threads, events)
    ensures Inv(t) && AllPosted(t)
  {
    hide Inv;
    ReachableInv(t, threads, events);
    StartInv(threads);
    RunPosted(Start(threads), events, t);
  }

  /** A ready worker waits in a queue of its own loop, in which no message suits it. */
  lemma ReadyWorkerWaits(t: State, threads: nat, events: seq<Event>, w: Connect) returns (q: nat)
    requires Reachable(t, threads, events) && w in t.conns && Ready(t.conns[w])
    ensures q < |t.workers| && t.conns[w].nloop < |t.workers[q]| && w in t.workers[q][t.conns[w].nloop]
    ensures q < |t.clients|
    ensures forall k, j :: 0 <= k < |t.clients[q]| && 0 <= j < |t.clients[q][k]| ==>
      !Suits(t.clients[q][k][j].required, t.conns[w].connectionId)
  {
    ReachablePosted(t, threads, events);
    assert Posted(t, w);
    var l := t.conns[w].nloop;
    q :| HasEntry(t.workers, q, l, w);
    var i :| 0 <= i < |t.workers[q][l]| && t.workers[q][l][i] == w;
    OneClientLine(t);
    hide Inv, Reachable, AllPosted;
    forall k, j | 0 <= k < |t.clients[q]| && 0 <= j < |t.clients[q][k]|
      ensures !Suits(t.clients[q][k][j].required, t.conns[w].connectionId)
    {
      NoMissedMatch(t, threads, events, q, l, i, k, j);
    }
  }

  lemma OneClientLine(t: State)
    requires Inv(t)
    ensures |t.workers| == |t.clients|
  {
    InvGrounded(t);
    hide Inv, Grounded;
  }

  /** A job is brought only by a complete request, and nothing is ever taken back from a send buffer. */
  lemma JobsAreDue(t: State, threads: nat, events: seq<Event>, e: Event, x: Connect)
    requires Reachable(t, threads, events) && Wf(t) && Enabled(t, e) && x in t.conns && x in Step(t, e).conns
    ensures var u := Step(t, e); var out, longer := t.conns[x].out, u.conns[x].out;
      && out <= longer
      && forall k :: |out| <= k < |longer| && IsJob(longer[k]) ==> Due(t, u, e, x, longer[k])
  {
    ReachablePosted(t, threads, events);
    hide Inv, Reachable, Wf, Enabled, Step, AllPosted, AcceptedIsTold, Due, IsJob, Grounded, ConnsLive;
    StepDelivers(t, e);
    assert DueTo(t, Step(t, e), e, x, t.conns[x].out, Step(t, e).conns[x].out);
  }

  /**
   A job that a worker gets by its own request is that of a message which leaves its deque, and no
   message that suits the worker and precedes it is left there.
   */
  lemma TakesFirst(t: State, threads: nat, events: seq<Event>, e: Event, k: nat) returns (q: nat, l: nat, i: nat)
    requires Reachable(t, threads, events) && Wf(t) && Enabled(t, e) && e.Completed? && e.c in Step(t, e).conns
    requires |t.conns[e.c].out| <= k < |Step(t, e).conns[e.c].out| && IsJob(Step(t, e).conns[e.c].out[k])
    ensures q < |t.clients| && l < |t.clients[q]| && i < |t.clients[q][l]|
    ensures var u := Step(t, e); var m := t.clients[q][l][i]; var id := u.conns[e.c].connectionId;
      && q < |u.clients| && l < |u.clients[q]| && m !in u.clients[q][l]
      && Suits(m.required, id)
      && Carries(t.conns, u.conns, m, u.conns[e.c].noid, u.conns[e.c].out[k])
      && (forall x :: x in u.clients[q][l] && Suits(x.required, id) ==> Precedes(m, x))
  {
    JobsAreDue(t, threads, events, e, e.c);
    hide Reachable, Wf, Step, IsJob, Carries, Suits, Precedes, Grounded, ConnsLive;
    assert Due(t, Step(t, e), e, e.c, Step(t, e).conns[e.c].out[k]);
    var q', l', i' :| FirstAt(t, Step(t, e), e.c, q', l', i', Step(t, e).conns[e.c].out[k]);
    q, l, i := q', l', i';
  }

  /** Any other job comes from the call in this request: its worker was ready there, and is the one required. */
  lemma HonoursRequiredWorker(t: State, threads: nat, events: seq<Event>, e: Event, w: Connect, k: nat)
    requires Reachable(t, threads, events) && Wf(t) && Enabled(t, e) && w in t.conns && w in Step(t, e).conns
    requires !(e.Completed? && e.c == w)
    requires |t.conns[w].out| <= k < |Step(t, e).conns[w].out| && IsJob(Step(t, e).conns[w].out[k])
    ensures var u := Step(t, e);
      && e.Completed? && e.r.kind in {Call, AsyncCall} && e.c in u.conns
      && Ready(t.conns[w])
      && (e.r.requiredWorker == "" || e.r.requiredWorker == u.conns[w].connectionId)
      && (var q := FoundQueue(t, e.r.name); q.Some? && HasEntry(t.workers, q.value, t.conns[w].nloop, w))
      && u.conns[w].out[k] == RequestReply(t, u, e.c, e.r, w)
  {
    JobsAreDue(t, threads, events, e, w);
    hide Reachable, Wf, Step, IsJob, RequestReply, HasEntry, FoundQueue, Ready, Grounded, ConnsLive;
    assert Due(t, Step(t, e), e, w, Step(t, e).conns[w].out[k]);
  }

  /** One job is accepted, with its name and body, when its caller is told so; no other step accepts one or says so. */
  lemma AcceptsWhatItTells(t: State, threads: nat, events: seq<Event>, e: Event)
    requires Reachable(t, threads, events) && Wf(t) && Enabled(t, e)
    ensures AcceptedIsTold(t, Step(t, e), e)
  {
    ReachablePosted(t, threads, events);
    hide Inv, Reachable, Wf, Enabled, Step, AllPosted, AcceptedIsTold, EveryJobDue, Grounded, ConnsLive;
    StepDelivers(t, e);
  }

  /**
   In any step a connection hears a result exactly when the request of a worker delivers it there: the
   worker serves this connection without ids, or names the id under which it is awaited. It hears it once.
   */
  lemma ResultsAreRouted(t: State, threads: nat, events: seq<Event>, e: Event, x: Connect)
    requires Reachable(t, threads, events) && Wf(t) && Enabled(t, e) && x in t.conns && x in Step(t, e).conns
    ensures var out, longer := t.conns[x].out, Step(t, e).conns[x].out;
      && out <= longer
      && (forall k :: |out| <= k < |longer| && IsResult(longer[k]) ==>
            k == |out| && e.Completed? && e.c in t.conns && Owed(t, e.c, e.r, x, longer[k]))
      && (forall reply :: e.Completed? && e.c in t.conns && Owed(t, e.c, e.r, x, reply) ==>
            |out| < |longer| && longer[|out|] == reply)
  {
    ReachableInv(t, threads, events);
    hide Reachable, Wf, Sane, Orderly, Enabled, Step, Owed, Breaks, BrokenMode, Grounded, ConnsLive;
    StepRoutes(t, e);
    if e.Completed? {
      assert RoutedTo(t, e.c, e.r, x, t.conns[x].out, Step(t, e).conns[x].out);
    } else {
      assert Keeps(t.conns[x], Step(t, e).conns[x]);
    }
  }

  /** In worker mode and at rest: its registration broke off. */
  predicate Stuck(v: Conn) {
    v.workerMode && v.status == Net
  }

  /** The first line of a request throws a connection out exactly when it is stuck. */
  lemma ThrowsOutIff(t: State, threads: nat, events: seq<Event>, c: Connect)
    requires Reachable(t, threads, events) && Wf(t) && Enabled(t, Begun(c))
    ensures c in Begin(t, c).conns && (Begin(t, c).conns[c].closed <==> Stuck(t.conns[c]))
  {
    ReachableInv(t, threads, events);
    hide Reachable, Wf, Sane, Orderly, Begin, Grounded, ConnsLive;
    LifeProofs.TableIsOpen(t, c);
    SessionProofs.BeginSane(t, c);
  }

  /** A connection gets stuck exactly by a registration in worker mode whose body cannot be scanned, and stays so. */
  lemma StuckIff(t: State, threads: nat, events: seq<Event>, e: Event, x: Connect)
    requires Reachable(t, threads, events) && Wf(t) && Enabled(t, e) && x in Step(t, e).conns
    requires !Step(t, e).conns[x].closed && (x in t.conns ==> !t.conns[x].closed)
    ensures Stuck(Step(t, e).conns[x])
       <==> x in t.conns && (Stuck(t.conns[x]) || (e.Completed? && e.c == x && BrokenMode(t.conns[x], e.r)))
  {
    ReachableInv(t, threads, events);
    hide Reachable, Wf, Orderly, Enabled, Step, RoutedTo, BrokenMode, Grounded, ConnsLive;
    LifeProofs.StepSane(t, e);
    StepRoutes(t, e);
    StuckIsSpoilt(Step(t, e), x);
    if x in t.conns {
      StuckIsSpoilt(t, x);
      hide Sane, Stuck;
      if e.Completed? {
        assert Breaks(t.conns[x], Step(t, e).conns[x], x == e.c && BrokenMode(t.conns[e.c], e.r));
      } else {
        assert Keeps(t.conns[x], Step(t, e).conns[x]);
      }
    } else {
      assert !e.Completed? ==> Step(t, e).conns[x] == NewConnection(e.loop);
    }
  }

  lemma StuckIsSpoilt(t: State, x: Connect)
    requires Sane(t) && x in t.conns && !t.conns[x].closed
    ensures Stuck(t.conns[x]) <==> t.conns[x].spoilt
  {
    hide Balanced, Settled;
  }

  /** A disconnect keeps the invariant exactly when the entry under the connection's id, if it waits, is its own. */
  lemma DisconnectKeepsIff(t: State, threads: nat, events: seq<Event>, c: Connect)
    requires Reachable(t, threads, events) && c in t.table
    ensures Wf(t) && c in t.conns
    ensures Inv(Disconnect(t, c)) <==> OwnEntry(t, c)
  {
    ReachableInv(t, threads, events);
    InvTable(t, c);
    hide Reachable, Wf, Sane, Orderly, Disconnect, OrderProofs.Aside, OwnEntry, Grounded, ConnsLive;
    Collisions.DisconnectIsSafeIff(t, c);
    OrderProofs.DisconnectAside(t, c);
    OrderProofs.AsideOrderly(t, Disconnect(t, c));
  }

  /** When a worker leaves, others than its client hear of it exactly when they are awaited under the client's id. */
  lemma TellsOnlyItsClientIff(t: State, threads: nat, events: seq<Event>, w: Connect, d: Connect)
    requires Reachable(t, threads, events) && w in t.table && w in t.conns && d in t.conns && Wf(t)
    requires t.conns[w].failOnDisconnect && t.conns[w].client == Some(d)
    ensures var u := Disconnect(t, w);
      (forall x :: x in t.conns && x in u.conns && x != w && u.conns[x].out != t.conns[x].out ==> x == d)
      <==> (t.conns[w].noid || !Departures.Stranger(t, t.conns[d].id, d))
  {
    ReachableInv(t, threads, events);
    InvTable(t, w);
    hide Reachable, Wf, Sane, Orderly, Disconnect, Departures.Stranger, Grounded, ConnsLive;
    Departures.OnlyOwnClientIff(t, w, d);
  }

  lemma InvTable(t: State, c: Connect)
    requires Inv(t) && c in t.table
    ensures Wf(t) && LifeProofs.InTable(t, c)
  {
    InvGrounded(t);
    hide Orderly, Exact, Placed, WaitOk, ItemsOk, Opened, ConnOk;
  }

  /** An awaited client that goes away frees its id exactly when no worker has taken its call from a queue. */
  lemma DisconnectFreesIff(t: State, threads: nat, events: seq<Event>, c: Connect, id: string)
    requires Reachable(t, threads, events) && c in t.table && id in t.wait && t.wait[id] == c
    ensures Wf(t) && c in t.conns && t.conns[c].id == id
    ensures id !in Disconnect(t, c).wait <==> t.conns[c].status == ClientWaitResult
  {
    ReachableInv(t, threads, events);
    InvTable(t, c);
    hide Reachable, Wf, Sane, Orderly, Disconnect, Grounded, ConnsLive;
    Collisions.DisconnectFreesIdIff(t, c, id);
  }
}
