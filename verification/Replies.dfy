/** Every event: who gets a job and why, who is told that one was accepted, and where ready workers wait. */
module Replies {
  import opened Connections
  import opened Deques
  import opened Names
  import opened BrokerState
  import opened Common
  import opened ClientRequests
  import opened WorkerRequests
  import opened Sessions
  import opened Ledger
  import opened Invariants
  import opened SessionProofs
  import opened RequestProofs
  import opened LifeProofs
  import opened Order
  import opened OrderProofs
  import opened Runs
  import opened Leads
  import opened Deliveries

  // Requests of workers

  lemma OwnFollows(u: Conn, v: Conn)
    requires v.out == u.out && v.nloop == u.nloop
    ensures Follows(u, v, true)
  {
  }

  /** A request that only prepared, and after which c is not ready, has brought nobody a job. */
  lemma LeadEnds(s: State, t: State, c: Connect)
    requires Lead(s, t, c) && c in s.conns && c in t.conns && !Ready(t.conns[c])
    ensures Outcome(s, t, c)
  {
    LeadBrings(s, t, c);
    LeadPosts(s, t, c);
    NotReadyPosted(t, c);
    hide Lead, Brought, PostsKept, Posted;
  }

  lemma RpcAddOutcome(s: State, c: Connect, rnd: Entropy)
    requires Orderly(s) && SaneBut(s, c) && Wf(s) && Idle(s.conns[c].(workerMode := false)) && !Ready(s.conns[c])
    ensures Outcome(s, RpcAdd(s, c, rnd), c)
  {
    hide Orderly, Balanced, ConnOk, Wf, Grounded, ConnsLive, Idle, AddWorkers, Send, Aside, Outcome, Lead, Follows;
    hide Ready;
    var v := s.conns[c];
    if v.name == "" {
      NamelessOutcome(s, c);
    } else {
      RegisteringStarts(s, c);
      RegisteringQuiet(v);
      OwnFollows(v, Engaged(v));
      UpdLead(s, c, Engaged(v), c);
      AddWorkersOutcome(Upd(s, c, Engaged(v)), c, SplitNames(v.name, 0, 0), rnd);
      LeadOutcome(s, Upd(s, c, Engaged(v)), RpcAdd(s, c, rnd), c);
    }
  }

  lemma NamelessOutcome(s: State, c: Connect)
    requires c in s.conns && !Ready(s.conns[c])
    ensures c in Upd(s, c, s.conns[c].(workerMode := false)).conns
    ensures Outcome(s, Send(Upd(s, c, s.conns[c].(workerMode := false)), c, NoName), c)
  {
    hide Lead, Outcome, Follows;
    var u := s.conns[c].(workerMode := false);
    OwnFollows(s.conns[c], u);
    UpdLead(s, c, u, c);
    var a := Upd(s, c, u);
    SendLead(a, c, NoName, c);
    LeadTrans(s, a, Send(a, c, NoName), c);
    LeadEnds(s, Send(a, c, NoName), c);
  }

  lemma StopOutcome(a: State, c: Connect)
    requires Wf(a) && c in a.conns
    ensures Outcome(a, Stop(a, c), c)
  {
    hide Wf, Grounded, ConnsLive, Lead, Outcome, Follows, PopItem, Send;
    ConnIsLive(a, c);
    PopItemWf(a, c);
    PopItemLead(a, c, c);
    var b := PopItem(a, c);
    var v := b.conns[c].(workerMode := false);
    OwnFollows(b.conns[c], v);
    UpdLead(b, c, v, c);
    var d := Upd(b, c, v);
    LeadTrans(a, b, d, c);
    SendLead(d, c, Ok, c);
    LeadTrans(a, d, Send(d, c, Ok), c);
    RestLead(Send(d, c, Ok), c, c);
    LeadTrans(a, Send(d, c, Ok), Stop(a, c), c);
    LeadEnds(a, Stop(a, c), c);
  }

  lemma NextJobOutcome(s: State, c: Connect, stop: bool, rnd: Entropy)
    requires Orderly(s) && SaneBut(s, c) && Wf(s) && ConnOk(s.conns[c]) && !s.conns[c].closed && !s.conns[c].started
    requires s.conns[c].workerMode && s.conns[c].status in {WorkerModeAsync, WorkerWaitResult}
    ensures Outcome(s, NextJob(s, c, stop, rnd), c)
  {
    var v := s.conns[c];
    WorkerModeNamed(v);
    hide Orderly, Aside, Balanced, ConnOk, Wf, Settled, Outcome, Lead, Grounded, ConnsLive;
    if v.status != WorkerModeAsync {
      OwingIfWaiting(v);
      WorkerResultNoidSane(s, c);
      WorkerResultNoidAside(s, c);
      WorkerResultNoidLead(s, c);
      AsideOrderly(s, WorkerResultNoid(s, c).s);
      ReleasedIdle(v);
    } else {
      AsyncIdle(v);
      LeadRefl(s, c);
    }
    hide WorkerResultNoid;
    var a := if v.status != WorkerModeAsync then WorkerResultNoid(s, c).s else s;
    if stop {
      StopOutcome(a, c);
    } else {
      RpcAddOutcome(a, c, rnd);
    }
    LeadOutcome(s, a, NextJob(s, c, stop, rnd), c);
  }

  /** Steps that leave deques alone and bring nobody a job. */
  lemma AsideOutcome(s: State, t: State, c: Connect)
    requires Aside(s, t) && c in s.conns && Posted(s, c)
    ensures Outcome(s, t, c)
  {
    hide FromQueue, Ready;
    forall x | x in s.conns ensures Grows(s.conns[x].out, t.conns[x].out) && (Posted(s, x) ==> Posted(t, x)) {
      assert Hush(s.conns[x], t.conns[x]) && IdKept(s.conns[x], t.conns[x]);
    }
  }

  // A complete request

  lemma FilledMarked(v: Conn, r: Request, now: nat)
    ensures var f := Filled(v, r, now); var m := Marked(f, r);
      && f.out == v.out && f.nloop == v.nloop && f.status == v.status && f.closed == v.closed
      && m.out == v.out && m.nloop == v.nloop && m.status == v.status && m.closed == v.closed
      && m.body == r.body && m.requiredWorker == r.requiredWorker
  {
  }

  lemma OrdinaryAnswers(s: State, a: State, c: Connect, r: Request, rnd: Entropy)
    requires Wf(s) && c in s.conns && c in a.conns && a == Upd(s, c, a.conns[c]) && Alone(s.conns[c], a.conns[c], r)
    requires Orderly(a) && SaneBut(a, c) && Wf(a) && r.kind != Echo
    requires var f := a.conns[c];
      && !f.closed && !f.started && f.status == Net && !f.noid && !f.workerMode && !f.failOnDisconnect && f.client.None?
      && Settled(f) && !f.spoilt
    requires Wf(Upd(a, c, Marked(a.conns[c], r)))
    ensures Answers(s, Perform(Upd(a, c, Marked(a.conns[c], r)), c, r, rnd), c, r)
  {
    hide Orderly, Aside, Balanced, ConnOk, Wf, Grounded, ConnsLive, Closed, Answers, Outcome, Lead, Hush, Follows;
    hide Settled;
    hide Marked, Idle;
    var m := Marked(a.conns[c], r);
    MarkedStarts(a, c, r);
    MarkedQuiet(a.conns[c], r);
    MarkedAsks(a.conns[c], r);
    var b := Upd(a, c, m);
    UpdTwice(s, c, a.conns[c], m);
    var t := Perform(b, c, r, rnd);
    if BreaksOff(m, r) {
      SendAside(b, c, InvalidData);
      NotReadyPosted(b, c);
      AsideOutcome(b, t, c);
      OwnFollows(s.conns[c], m);
      UpdLead(s, c, m, c);
      LeadOutcome(s, b, t, c);
      OutcomeAnswers(s, t, c, r);
    } else if r.kind in {Call, AsyncCall} {
      assert Requested(s, b, c, r);
      ClientRequestAnswers(s, b, c, r, rnd);
    } else {
      if r.kind == Result {
        RpcResultAside(b, c);
        NotReadyPosted(b, c);
        AsideOutcome(b, t, c);
      } else {
        RpcAddOutcome(b, c, rnd);
      }
      OwnFollows(s.conns[c], m);
      UpdLead(s, c, m, c);
      LeadOutcome(s, b, t, c);
      OutcomeAnswers(s, t, c, r);
    }
  }

  lemma MarkedAsks(f: Conn, r: Request)
    ensures var m := Marked(f, r);
      m.noResponse == (r.kind == AsyncCall && !r.broken) && m.body == f.body && m.requiredWorker == f.requiredWorker
  {
  }

  /** f differs from v in what the request says only. */
  predicate Alone(v: Conn, f: Conn, r: Request) {
    && f.out == v.out && f.nloop == v.nloop && f.status == v.status && f.closed == v.closed
    && f.body == r.body && f.requiredWorker == r.requiredWorker
  }

  lemma CompleteAnswers(s: State, c: Connect, r: Request, now: nat, rnd: Entropy)
    requires Inv(s) && Wf(s) && c in s.conns && !s.conns[c].closed && s.conns[c].started
    requires Unclaimed(s, c, r.setId)
    ensures Answers(s, Complete(s, c, r, now, rnd), c, r)
  {
    hide Orderly, Aside, Balanced, ConnOk, Wf, Grounded, ConnsLive, Closed, Filled, Quiet, Answers, Outcome, Lead;
    hide Hush, Follows, Unclaimed, Tasks;
    var v := s.conns[c];
    var f := Filled(v, r, now);
    FilledOk(v, r, now);
    FilledId(v, r, now);
    FilledMarked(v, r, now);
    FilledAlone(v, r, now);
    StartedStatus(v);
    FilledLive(s, c, r, now);
    UpdWf(s, c, f);
    NotWaiting(s, c);
    BalancedUpd(s, c, f, multiset{}, multiset{});
    var a := Upd(s, c, f);
    SetIdKeepsIff(s, c, f, r.setId);
    OwnFollows(v, f);
    UpdLead(s, c, f, c);
    NotReadyPosted(a, c);
    var t := Complete(s, c, r, now, rnd);
    if r.kind != Echo && !f.workerMode && !f.noid {
      OrdinarySettled(f);
      MarkedWf(a, c, r);
      OrdinaryAnswers(s, a, c, r, rnd);
    } else {
      if r.kind == Echo {
        SendAside(a, c, Ok);
        AsideOutcome(a, t, c);
      } else if f.workerMode {
        NextJobOutcome(a, c, r.stop, rnd);
      } else {
        FinishJobAside(a, c, r.kind == Result);
        AsideOutcome(a, t, c);
      }
      LeadOutcome(s, a, t, c);
      OutcomeAnswers(s, t, c, r);
    }
  }

  lemma FilledAlone(v: Conn, r: Request, now: nat)
    requires ConnOk(v) && !v.closed && v.started
    ensures Alone(v, Filled(v, r, now), r) && !Ready(Filled(v, r, now))
  {
  }

  // The janitor

  /** Nobody hears anything, and ready workers keep a place. */
  ghost predicate Tidied(s: State, t: State) {
    && s.conns.Keys == t.conns.Keys && t.accepted == s.accepted
    && forall x :: x in s.conns ==> t.conns[x].out == s.conns[x].out && (Posted(s, x) ==> Posted(t, x))
  }

  lemma TidiedTrans(s: State, t: State, u: State)
    requires Tidied(s, t) && Tidied(t, u)
    ensures Tidied(s, u)
  {
    hide Posted;
    forall x | x in s.conns ensures u.conns[x].out == s.conns[x].out && (Posted(s, x) ==> Posted(u, x)) {
      assert x in t.conns;
    }
  }

  lemma TidiedRefl(s: State)
    ensures Tidied(s, s)
  {
  }

  lemma UnlinkTidies(s: State, c: Connect)
    requires c in s.conns
    ensures Tidied(s, Unlink(s, c))
  {
    hide Core;
    UnlinkOnly(s, c);
    UnlinkHistory(s, c);
    UnlinkWorkers(s, c);
    var t := Unlink(s, c);
    hide Unlink;
    forall x | x in s.conns ensures t.conns[x].out == s.conns[x].out && (Posted(s, x) ==> Posted(t, x)) {
      SameCore(s.conns[x], t.conns[x]);
    }
  }

  lemma UnlinkWorkers(s: State, c: Connect)
    requires c in s.conns
    ensures Unlink(s, c).workers == s.workers
  {
  }

  lemma EraseUnready(s: State, q: nat, l: nat, i: nat)
    requires q < |s.workers| && l < |s.workers[q]| && i < |s.workers[q][l]| && s.workers[q][l][i] in s.conns
    requires !Ready(s.conns[s.workers[q][l][i]])
    ensures Tidied(s, EraseWorker(s, q, l, i))
  {
    hide SetAt, RemoveAt, Unlink, Core;
    var w := s.workers[q][l][i];
    EraseWorkerLead(s, q, l, i, w);
    LeadPosts(s, EraseWorker(s, q, l, i), w);
    LeadKeys(s, EraseWorker(s, q, l, i), w);
    LeadHistory(s, EraseWorker(s, q, l, i), w);
    hide Lead, Posted;
    forall x | x in s.conns
      ensures EraseWorker(s, q, l, i).conns[x].out == s.conns[x].out
      ensures Posted(s, x) ==> Posted(EraseWorker(s, q, l, i), x)
    {
      ErasedKeeps(s, q, l, i, x);
      if x == w {
        NotReadyPosted(EraseWorker(s, q, l, i), w);
      }
    }
  }

  lemma EraseMessageTidies(s: State, q: nat, l: nat, i: nat)
    requires q < |s.clients| && l < |s.clients[q]| && i < |s.clients[q][l]| && MsgLive(s.clients[q][l][i], s.conns.Keys)
    ensures Tidied(s, EraseMessage(s, q, l, i))
  {
    hide SetAt, RemoveAt, Unlink;
    var t := SetClients(s, q, l, RemoveAt(s.clients[q][l], i));
    assert Tidied(s, t);
    var m := s.clients[q][l][i];
    if m.conn.Some? {
      UnlinkTidies(t, m.conn.value);
      TidiedTrans(s, t, Unlink(t, m.conn.value));
    }
  }

  lemma {:induction false} CleanWorkersTidies(s: State, q: nat, l: nat, i: nat)
    requires Wf(s) && q < |s.workers| && l < s.threads && i <= |s.workers[q][l]|
    ensures Tidied(s, CleanWorkers(s, q, l, i))
    decreases |s.workers[q][l]| - i
  {
    hide Grounded, EraseWorker, Tidied;
    TidiedRefl(s);
    if i < |s.workers[q][l]| {
      RemoveWorkerWf(s, q, l, i);
      if !Ready(s.conns[s.workers[q][l][i]]) {
        EraseWorkerWf(s, q, l, i);
        ErasedWorkers(s, q, l, i);
        EraseUnready(s, q, l, i);
        var t := EraseWorker(s, q, l, i);
        CleanWorkersTidies(t, q, l, i);
        TidiedTrans(s, t, CleanWorkers(t, q, l, i));
      } else {
        CleanWorkersTidies(s, q, l, i + 1);
      }
    }
  }

  lemma {:induction false} CleanClientsTidies(s: State, q: nat, l: nat, i: nat)
    requires Wf(s) && q < |s.clients| && l < s.threads && i <= |s.clients[q][l]|
    ensures Tidied(s, CleanClients(s, q, l, i))
    decreases |s.clients[q][l]| - i
  {
    hide Grounded, EraseMessage, Tidied;
    TidiedRefl(s);
    if i < |s.clients[q][l]| {
      RemoveMessageWf(s, q, l, i);
      if Stale(s, s.clients[q][l][i]) {
        EraseMessageWf(s, q, l, i);
        ErasedClients(s, q, l, i);
        EraseMessageTidies(s, q, l, i);
        var t := EraseMessage(s, q, l, i);
        CleanClientsTidies(t, q, l, i);
        TidiedTrans(s, t, CleanClients(t, q, l, i));
      } else {
        CleanClientsTidies(s, q, l, i + 1);
      }
    }
  }

  lemma {:induction false} CleanLineTidies(s: State, q: nat, l: nat)
    requires Wf(s) && q < |s.lists|
    ensures Tidied(s, CleanLine(s, q, l))
    decreases s.threads - l
  {
    hide Grounded, CleanWorkers, CleanClients, Tidied;
    TidiedRefl(s);
    if l < s.threads {
      CleanWorkersTidies(s, q, l, 0);
      var t := CleanWorkers(s, q, l, 0);
      CleanClientsTidies(t, q, l, 0);
      var u := CleanClients(t, q, l, 0);
      CleanLineTidies(u, q, l + 1);
      TidiedTrans(s, t, u);
      TidiedTrans(s, u, CleanLine(u, q, l + 1));
    }
  }

  lemma {:induction false} CleanTidies(s: State, q: nat, locked: set<nat>)
    requires Wf(s)
    ensures Tidied(s, Clean(s, q, locked))
    decreases |s.lists| - q
  {
    hide Wf, CleanLine, Tidied, Grounded, ConnsLive;
    TidiedRefl(s);
    if q < |s.lists| {
      if q in locked {
        CleanTidies(s, q + 1, locked);
      } else {
        CleanLineTidies(s, q, 0);
        var t := CleanLine(s, q, 0);
        CleanTidies(t, q + 1, locked);
        TidiedTrans(s, t, Clean(t, q + 1, locked));
      }
    }
  }

  // Steps

  /** x was brought this reply for a reason: a message it took, or a call it was ready for. */
  ghost predicate Due(s: State, t: State, e: Event, x: Connect, reply: Reply) {
    e.Completed? && if x == e.c then FromQueue(s, t, x, reply) else Hired(s, t, e.c, e.r, x, reply)
  }

  ghost predicate DueTo(s: State, t: State, e: Event, x: Connect, out: seq<Reply>, longer: seq<Reply>) {
    out <= longer && forall k :: |out| <= k < |longer| && IsJob(longer[k]) ==> Due(s, t, e, x, longer[k])
  }

  /** Nothing is taken back from a send buffer, and every job on it was due. */
  ghost predicate EveryJobDue(s: State, t: State, e: Event) {
    forall x :: x in s.conns && x in t.conns ==> DueTo(s, t, e, x, s.conns[x].out, t.conns[x].out)
  }

  /** One job is accepted when its caller is told so, and otherwise none. */
  ghost predicate AcceptedIsTold(s: State, t: State, e: Event) {
    || (t.accepted == s.accepted
        && forall x :: x in s.conns && x in t.conns ==> NoAcceptance(s.conns[x].out, t.conns[x].out))
    || (e.Completed? && e.r.kind == AsyncCall && e.c in s.conns && e.c in t.conns
        && t.accepted == s.accepted + multiset{Job(s.stamp, e.r.name, e.r.body)}
        && t.conns[e.c].out == s.conns[e.c].out + [AsyncAccepted]
        && forall x :: x in s.conns && x in t.conns && x != e.c ==> NoAcceptance(s.conns[x].out, t.conns[x].out))
  }

  ghost predicate AllPosted(s: State) {
    forall x :: x in s.conns ==> Posted(s, x)
  }

  lemma SilentStep(s: State, t: State, e: Event)
    requires t.accepted == s.accepted
    requires forall x :: x in s.conns && x in t.conns ==> Grows(s.conns[x].out, t.conns[x].out)
    ensures EveryJobDue(s, t, e) && AcceptedIsTold(s, t, e)
  {
    hide Due;
  }

  lemma AsideStep(s: State, t: State, e: Event)
    requires Aside(s, t) && AllPosted(s)
    ensures EveryJobDue(s, t, e) && AcceptedIsTold(s, t, e) && AllPosted(t)
  {
    hide Ready, IsJob;
    forall x | x in s.conns ensures Grows(s.conns[x].out, t.conns[x].out) && Posted(t, x) {
      assert Hush(s.conns[x], t.conns[x]) && IdKept(s.conns[x], t.conns[x]) && Posted(s, x);
    }
    SilentStep(s, t, e);
  }

  lemma TidyStep(s: State, t: State, e: Event)
    requires Tidied(s, t) && AllPosted(s)
    ensures EveryJobDue(s, t, e) && AcceptedIsTold(s, t, e) && AllPosted(t)
  {
    hide Posted;
    SilentStep(s, t, e);
  }

  lemma BirthStep(s: State, c: Connect, loop: nat, e: Event)
    requires AllPosted(s) && c !in s.conns
    ensures var t := Accept(s, c, loop); EveryJobDue(s, t, e) && AcceptedIsTold(s, t, e) && AllPosted(t)
  {
    hide IsJob;
    var t := Accept(s, c, loop);
    SilentStep(s, t, e);
    forall x | x in t.conns ensures Posted(t, x) {
      if x in s.conns {
        assert Posted(s, x) && t.conns[x] == s.conns[x];
      }
    }
  }

  lemma DeathStep(s: State, loop: nat, e: Event)
    requires AllPosted(s) && Wf(s)
    ensures var t := DeleteConnections(s, loop); EveryJobDue(s, t, e) && AcceptedIsTold(s, t, e) && AllPosted(t)
  {
    hide IsJob, Wf, Victims, DeadElsewhere, Carried, Grounded, ConnsLive;
    var t := DeleteConnections(s, loop);
    SilentStep(s, t, e);
    forall x | x in t.conns ensures Posted(t, x) {
      assert Posted(s, x) && t.conns[x] == s.conns[x];
    }
  }

  lemma AnswerStep(s: State, t: State, e: Event)
    requires e.Completed? && Answers(s, t, e.c, e.r) && AllPosted(s)
    ensures EveryJobDue(s, t, e) && AcceptedIsTold(s, t, e) && AllPosted(t)
  {
    hide FromQueue, Hired, NoAcceptance, Posted;
    forall x | x in s.conns ensures DueTo(s, t, e, x, s.conns[x].out, t.conns[x].out) && Posted(t, x) {
      assert OnlyDue(s, t, e.c, e.r, x, s.conns[x].out, t.conns[x].out);
      assert Posted(s, x);
    }
  }

  /** Every event brings only jobs that are due, accepts only what it tells, and keeps ready workers posted. */
  lemma StepDelivers(s: State, e: Event)
    requires Inv(s) && Wf(s) && Enabled(s, e) && AllPosted(s)
    ensures var t := Step(s, e); EveryJobDue(s, t, e) && AcceptedIsTold(s, t, e) && AllPosted(t)
  {
    hide Sane, Orderly, Wf, Aside, EveryJobDue, AcceptedIsTold, AllPosted, Answers, Tidied, Grounded, ConnsLive;
    match e
    case Accepted(c, loop) => BirthStep(s, c, loop, e);
    case Begun(c) => BeginAside(s, c); AsideStep(s, Begin(s, c), e);
    case Completed(c, r, now, rnd) =>
      TableIsOpen(s, c);
      CompleteAnswers(s, c, r, now, rnd);
      AnswerStep(s, Complete(s, c, r, now, rnd), e);
    case Disconnected(c) => DisconnectAside(s, c); AsideStep(s, Disconnect(s, c), e);
    case TimedOut(now) =>
      FlatLive(s.workers, s.conns.Keys) by { assert WorkersLive(s.workers, s.conns.Keys) by { WorkersLiveOf(s); } }
      TimeoutAllAside(s, Flat(s.workers), now);
      AsideStep(s, CheckTimeout(s, now), e);
    case Cleaned(locked) =>
      CleanTidies(s, 0, locked);
      TidyStep(s, Clean(s, 0, locked), e);
    case Deleted(loop) => DeathStep(s, loop, e);
  }
}
