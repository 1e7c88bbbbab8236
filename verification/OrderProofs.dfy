/** Every handler keeps the deques orderly. */
module OrderProofs {
  import opened Connections
  import opened Deques
  import opened Names
  import opened BrokerState
  import opened Common
  import opened ClientRequests
  import opened WorkerRequests
  import opened Sessions
  import opened Order
  import opened Invariants
  import opened Ledger
  import opened CallProofs

  predicate IdKept(u: Conn, v: Conn) {
    v.nloop == u.nloop && (u.connectionId != "" ==> v.connectionId == u.connectionId) && Tasks(v.out) == Tasks(u.out)
  }

  predicate IdsKept(conns: map<Connect, Conn>, left: map<Connect, Conn>) {
    && conns.Keys == left.Keys
    && forall c :: c in conns ==> IdKept(conns[c], left[c])
  }

  /** A step that leaves the deques and the job history alone. */
  ghost predicate Beside(s: State, t: State) {
    && t.workers == s.workers && t.clients == s.clients && t.stamp == s.stamp
    && t.accepted == s.accepted && t.handed == s.handed && t.buried == s.buried && t.threads == s.threads
    && IdsKept(s.conns, t.conns)
  }

  /** No job, no acceptance of one, and no readiness that was not there. */
  predicate Hush(u: Conn, v: Conn) {
    Grows(u.out, v.out) && (Ready(v) ==> Ready(u))
  }

  predicate Hushed(conns: map<Connect, Conn>, left: map<Connect, Conn>) {
    forall c :: c in conns && c in left ==> Hush(conns[c], left[c])
  }

  /** A step that moreover brings nobody a job and makes nobody ready. */
  ghost predicate Aside(s: State, t: State) {
    Beside(s, t) && Hushed(s.conns, t.conns)
  }

  lemma KeptRegistered(workers: Deques<Connect>, conns: map<Connect, Conn>, left: map<Connect, Conn>)
    requires Registered(workers, conns) && IdsKept(conns, left)
    ensures Registered(workers, left)
  {
  }

  lemma KeptUnmatched(workers: Deques<Connect>, clients: Deques<Msg>, conns: map<Connect, Conn>,
                      left: map<Connect, Conn>)
    requires Registered(workers, conns) && Unmatched(workers, clients, conns) && IdsKept(conns, left)
    ensures Unmatched(workers, clients, left)
  {
    forall q, l, i, k, j |
      && 0 <= q < |workers| && 0 <= l < |workers[q]| && 0 <= i < |workers[q][l]|
      && q < |clients| && 0 <= k < |clients[q]| && 0 <= j < |clients[q][k]|
      ensures Apart(left, workers[q][l][i], clients[q][k][j])
    {
      assert Entry(conns, workers[q][l][i], l) && Apart(conns, workers[q][l][i], clients[q][k][j]);
    }
  }

  lemma KeptDelivered(conns: map<Connect, Conn>, left: map<Connect, Conn>, buried: multiset<Job>, handed: multiset<Job>)
    requires Delivered(conns, buried, handed) && IdsKept(conns, left)
    ensures Delivered(left, buried, handed)
  {
    hide Tasks, Carried;
    CarriedSame(conns, left);
  }

  lemma AsideOrderly(s: State, t: State)
    requires Orderly(s) && Aside(s, t)
    ensures Orderly(t)
  {
    hide Orderly, Hushed, IdsKept, Hushed;
    BesideOrderly(s, t);
  }

  lemma BesideOrderly(s: State, t: State)
    requires Orderly(s) && Beside(s, t)
    ensures Orderly(t)
  {
    hide Registered, Unmatched, Sorted, IdsKept, Hushed, Jobs, Flat;
    KeptRegistered(s.workers, s.conns, t.conns);
    KeptUnmatched(s.workers, s.clients, s.conns, t.conns);
    KeptDelivered(s.conns, t.conns, s.buried, s.handed);
    hide Delivered, Stamped;
  }

  lemma AsideTrans(s: State, t: State, u: State)
    requires Aside(s, t) && Aside(t, u)
    ensures Aside(s, u)
  {
    hide Hushed, Hush;
    HushedTrans(s.conns, t.conns, u.conns);
  }

  lemma HushedTrans(a: map<Connect, Conn>, b: map<Connect, Conn>, c: map<Connect, Conn>)
    requires Hushed(a, b) && Hushed(b, c) && a.Keys == b.Keys
    ensures Hushed(a, c)
  {
    hide Hush;
    forall x | x in a && x in c ensures Hush(a[x], c[x]) {
      HushTrans(a[x], b[x], c[x]);
    }
  }

  lemma HushTrans(a: Conn, b: Conn, c: Conn)
    requires Hush(a, b) && Hush(b, c)
    ensures Hush(a, c)
  {
  }

  lemma AsideRefl(s: State)
    ensures Aside(s, s)
  {
  }

  lemma UpdAside(s: State, c: Connect, v: Conn)
    requires c in s.conns && IdKept(s.conns[c], v) && Hush(s.conns[c], v)
    ensures Aside(s, Upd(s, c, v))
  {
    hide IdsKept;
    UpdBeside(s, c, v);
  }

  lemma UpdBeside(s: State, c: Connect, v: Conn)
    requires c in s.conns && IdKept(s.conns[c], v)
    ensures Beside(s, Upd(s, c, v))
  {
  }

  lemma UnlinkAside(s: State, c: Connect)
    requires c in s.conns
    ensures Aside(s, Unlink(s, c))
  {
    hide IdsKept, Hushed, Tasks;
    UpdAside(s, c, s.conns[c].(link := s.conns[c].link - 1));
  }

  lemma SendAside(s: State, c: Connect, r: Reply)
    requires c in s.conns && !IsJob(r) && !r.AsyncAccepted?
    ensures Aside(s, Send(s, c, r))
  {
    hide Tasks, Aside;
    SameAside(s, s.(fault := true));
    TasksAppend(s.conns[c].out, r);
    UpdAside(s, c, s.conns[c].(out := s.conns[c].out + [r]));
  }

  lemma SameAside(s: State, t: State)
    requires t == s.(fault := t.fault)
    ensures Aside(s, t)
  {
  }

  lemma PopItemAside(s: State, c: Connect)
    requires c in s.conns && (s.conns[c].item.Some? ==> s.conns[c].item.value < |s.lists|)
    ensures Aside(s, PopItem(s, c))
  {
    hide Without, IdsKept, Hushed, Unlink;
    if s.conns[c].item.Some? {
      var q := s.conns[c].item.value;
      UpdAside(s, c, s.conns[c].(item := None));
      var a := Upd(s, c, s.conns[c].(item := None)).(lists := s.lists[q := Without(s.lists[q], c)]);
      UnlinkAside(a, c);
      AsideTrans(s, a, Unlink(a, c));
    } else {
      AsideRefl(s);
    }
  }

  // Results

  lemma WorkerResultAside(s: State, id: string, body: Option<string>)
    requires Wf(s)
    ensures Aside(s, WorkerResult(s, id, body).s)
  {
    hide WorkersLive, ClientsLive, ListsLive, ConnsLive, IdsKept, Hushed, IdKept, SameFrame;
    AsideRefl(s);
    if id in s.wait {
      var c := s.wait[id];
      var t := s.(wait := s.wait - {id});
      hide WaitLive;
      UnlinkAside(t, c);
      var u := Unlink(t, c);
      AsideTrans(s, t, u) by { AsideRefl(s); Unwaiting(s, id); }
      AsideKeys(t, u);
      hide Unlink;
      if !u.conns[c].closed {
        var r := if body.Some? then AnswerWithId(id, body.value) else Unavailable;
        ToldAside(u, c, r, Net);
        AsideTrans(s, u, SetStatus(Send(u, c, r), c, Net));
      }
    }
  }

  lemma Unwaiting(s: State, id: string)
    ensures Aside(s, s.(wait := s.wait - {id}))
  {
  }

  lemma AsideKeys(s: State, t: State)
    requires Aside(s, t)
    ensures s.conns.Keys == t.conns.Keys
  {
    hide IdKept, Hushed;
  }

  lemma ToldAside(s: State, c: Connect, r: Reply, status: Status)
    requires c in s.conns && !IsJob(r) && !r.AsyncAccepted? && status != WorkerWaitJob
    ensures c in Send(s, c, r).conns && Aside(s, SetStatus(Send(s, c, r), c, status))
    ensures c in SetStatus(s, c, status).conns && Aside(s, Send(SetStatus(s, c, status), c, r))
  {
    hide IdsKept, Hushed;
    SendAside(s, c, r);
    var t := Send(s, c, r);
    AsideKeys(s, t);
    UpdAside(t, c, t.conns[c].(status := status));
    AsideTrans(s, t, SetStatus(t, c, status));
    var u := SetStatus(s, c, status);
    UpdAside(s, c, s.conns[c].(status := status));
    SendAside(u, c, r);
    AsideTrans(s, u, Send(u, c, r));
  }

  lemma WorkerResultNoidAside(s: State, w: Connect)
    requires Wf(s) && w in s.conns
    ensures Aside(s, WorkerResultNoid(s, w).s)
  {
    hide IdsKept, Hushed, SameFrame, Wf, Grounded, ConnsLive, Unlink, Send, SetStatus;
    var v := s.conns[w];
    AsideRefl(s);
    if v.client.Some? {
      ConnIsLive(s, w);
      var c := v.client.value;
      UpdAside(s, w, Released(v));
      var t := Upd(s, w, Released(v));
      UnlinkAside(t, c);
      var u := Unlink(t, c);
      AsideTrans(s, t, u);
      AsideKeys(s, u);
      if !u.conns[c].closed {
        ToldAside(u, c, Answer(v.body), Net);
        AsideTrans(s, u, Send(SetStatus(u, c, Net), c, Answer(v.body)));
      }
    } else {
      FaultAside(s);
    }
  }

  lemma FaultAside(s: State)
    ensures Aside(s, s.(fault := true))
  {
  }

  // Disconnects and the start of requests

  lemma ForgetAside(s: State, c: Connect)
    requires Wf(s) && c in s.conns
    ensures Aside(s, Forget(s, c))
  {
    hide IdsKept, Hushed, Wf, PopItem, ForgetCall, Grounded, ConnsLive;
    ConnIsLive(s, c);
    PopItemWf(s, c);
    PopItemAside(s, c);
    var p := PopItem(s, c);
    ForgetCallAside(p, c);
    AsideTrans(s, p, ForgetCall(p, c));
  }

  lemma ForgetCallAside(s: State, c: Connect)
    requires Wf(s) && c in s.conns
    ensures Aside(s, ForgetCall(s, c))
  {
    hide IdsKept, Hushed, SameFrame, Wf, Unlink, Grounded, ConnsLive;
    AsideRefl(s);
    var v := s.conns[c];
    if v.status == ClientWaitResult && v.id != "" && v.id in s.wait {
      var t := s.(wait := s.wait - {v.id});
      Unwaiting(s, v.id);
      UnlinkAside(t, c);
      AsideTrans(s, t, Unlink(t, c));
    }
  }

  lemma DropClientAside(s: State, c: Connect)
    requires Wf(s) && c in s.conns
    ensures Aside(s, DropClient(s, c))
  {
    hide IdsKept, Hushed, SameFrame, Unlink;
    ConnIsLive(s, c);
    AsideRefl(s);
    hide Wf, Grounded, ConnsLive;
    if s.conns[c].client.Some? {
      var t := SetClient(s, c, None);
      UpdAside(s, c, s.conns[c].(client := None));
      UnlinkAside(t, s.conns[c].client.value);
      AsideTrans(s, t, Unlink(t, s.conns[c].client.value));
    }
  }

  lemma FailServedAside(s: State, c: Connect)
    requires Wf(s) && c in s.conns
    ensures Aside(s, FailServed(s, c))
  {
    hide IdsKept, Hushed, SameFrame;
    ConnIsLive(s, c);
    AsideRefl(s);
    FaultAside(s);
    var v := s.conns[c];
    if v.client.Some? {
      hide Wf, Grounded, ConnsLive;
      var d := v.client.value;
      if v.noid {
        ToldAside(s, d, Unavailable, Net);
        UpdAside(s, d, s.conns[d].(status := Net));
      } else {
        WorkerResultAside(s, s.conns[d].id, None);
      }
    }
  }

  lemma DisconnectAside(s: State, c: Connect)
    requires Wf(s) && c in s.conns
    ensures Aside(s, Disconnect(s, c))
  {
    hide IdsKept, Hushed, Wf, Forget, FailServed, DropClient, Unlink, Grounded, ConnsLive;
    SetClosedWf(s, c);
    UpdAside(s, c, s.conns[c].(closed := true));
    var a := SetClosed(s, c);
    ForgetAside(a, c);
    var b := Forget(a, c);
    AsideTrans(s, a, b);
    var d := OnDisconnect(a, c);
    if b.conns[c].failOnDisconnect {
      FailServedAside(b, c);
      DropClientAside(FailServed(b, c), c);
      AsideTrans(s, b, FailServed(b, c));
      AsideTrans(s, FailServed(b, c), d);
    }
    hide OnDisconnect;
    AsideKeys(s, d);
    UnlinkAside(d, c);
    AsideTrans(s, d, Unlink(d, c));
    LeaveAside(Unlink(d, c), c);
    AsideTrans(s, Unlink(d, c), LeaveTable(Unlink(d, c), c));
  }

  lemma LeaveAside(s: State, c: Connect)
    ensures Aside(s, LeaveTable(s, c))
  {
  }

  lemma BeginAside(s: State, c: Connect)
    requires Wf(s) && c in s.conns
    ensures Aside(s, Begin(s, c))
  {
    hide Aside, DropClient, Disconnect, Wf, SameFrame, Grounded, ConnsLive, Fresh, Upd;
    DisconnectAside(s, c);
    FreshAside(s, c);
    var t := Upd(s, c, Fresh(s.conns[c]).(failOnDisconnect := false, noid := false));
    DropClientAside(t, c);
    AsideTrans(s, t, DropClient(t, c));
  }

  lemma FreshAside(s: State, c: Connect)
    requires Wf(s) && c in s.conns
    ensures Aside(s, Upd(s, c, Fresh(s.conns[c])))
    ensures var t := Upd(s, c, Fresh(s.conns[c]).(failOnDisconnect := false, noid := false));
      Aside(s, t) && Wf(t) && c in t.conns
  {
    hide Aside, Wf, Grounded, ConnsLive, Tasks;
    ConnIsLive(s, c);
    var f := Fresh(s.conns[c]).(failOnDisconnect := false, noid := false);
    UpdAside(s, c, Fresh(s.conns[c]));
    UpdAside(s, c, f);
    UpdWf(s, c, f);
  }

  // Replies to workers

  lemma AcknowledgeAside(s: State, c: Connect, code: int)
    requires Wf(s) && c in s.conns
    ensures Aside(s, Acknowledge(s, c, code))
  {
    hide IdsKept, Hushed, Wf, SameFrame, Grounded, ConnsLive;
    ToldAside(s, c, if code == 0 then Ok else if code == -2 then ClientGone else WrongId, Net);
  }

  lemma FinishJobAside(s: State, c: Connect, isResult: bool)
    requires Wf(s) && c in s.conns
    ensures Aside(s, FinishJob(s, c, isResult))
  {
    hide IdsKept, Hushed, Wf, WorkerResultNoid, Acknowledge, Grounded, ConnsLive;
    SendAside(s, c, ResultExpected);
    WorkerResultNoidAside(s, c);
    var r := WorkerResultNoid(s, c);
    AcknowledgeAside(r.s, c, r.code);
    AsideTrans(s, r.s, Acknowledge(r.s, c, r.code));
  }

  lemma RpcResultAside(s: State, c: Connect)
    requires Wf(s) && c in s.conns
    ensures Aside(s, RpcResult(s, c))
  {
    hide IdsKept, Hushed, Wf, WorkerResult, Acknowledge, Grounded, ConnsLive;
    var v := s.conns[c];
    var id := if v.id != "" then v.id else v.jsonId;
    ToldAside(s, c, NoId, Net);
    if id != "" {
      WorkerResultAside(s, id, Some(v.body));
      var r := WorkerResult(s, id, Some(v.body));
      AcknowledgeAside(r.s, c, r.code);
      AsideTrans(s, r.s, Acknowledge(r.s, c, r.code));
    }
  }

  lemma StopAside(a: State, c: Connect)
    requires Wf(a) && c in a.conns
    ensures Aside(a, Stop(a, c))
  {
    hide IdsKept, Hushed, PopItem;
    ConnIsLive(a, c);
    hide Wf, Grounded, ConnsLive;
    PopItemWf(a, c);
    PopItemAside(a, c);
    var b := PopItem(a, c);
    var v := b.conns[c].(workerMode := false);
    UpdAside(b, c, v);
    AsideTrans(a, b, Upd(b, c, v));
    ToldAside(Upd(b, c, v), c, Ok, Net);
    AsideTrans(a, Upd(b, c, v), Stop(a, c));
  }

  // Timeouts

  lemma TimeoutOneAside(s: State, w: Connect, now: nat)
    requires Wf(s) && w in s.conns
    ensures Aside(s, TimeoutOne(s, w, now))
  {
    hide IdsKept, Hushed, SameFrame, Wf, Grounded, ConnsLive;
    AsideRefl(s);
    var v := s.conns[w];
    var u := v.(status := StatusAfterAsync(v), pingTimeout := now + v.ping);
    UpdAside(s, w, u);
    SendAside(Upd(s, w, u), w, Timeout);
    AsideTrans(s, Upd(s, w, u), Send(Upd(s, w, u), w, Timeout));
  }

  lemma {:induction false} TimeoutAllAside(s: State, ws: seq<Connect>, now: nat)
    requires Wf(s) && forall i :: 0 <= i < |ws| ==> ws[i] in s.conns
    ensures Aside(s, TimeoutAll(s, ws, now))
    decreases |ws|
  {
    hide Aside, Wf, TimeoutOne, Grounded, ConnsLive;
    AsideRefl(s);
    if ws != [] {
      TimeoutOneAside(s, ws[0], now);
      var t := TimeoutOne(s, ws[0], now);
      TimeoutAllAside(t, ws[1..], now);
      AsideTrans(s, t, TimeoutAll(t, ws[1..], now));
    }
  }

  // Scans

  lemma EraseWorkerOrderly(s: State, q: nat, l: nat, i: nat)
    requires Orderly(s) && q < |s.workers| && l < |s.workers[q]| && i < |s.workers[q][l]|
    requires s.workers[q][l][i] in s.conns
    ensures Orderly(EraseWorker(s, q, l, i))
  {
    hide Registered, Unmatched, Sorted, Jobs, Flat, Unlink, Aside;
    RemoveEntry(s.workers, s.clients, s.conns, q, l, i);
    var t := SetWorkers(s, q, l, RemoveAt(s.workers[q][l], i));
    UnlinkAside(t, s.workers[q][l][i]);
    AsideOrderly(t, Unlink(t, s.workers[q][l][i]));
  }

  /** A client's message may go; an asynchronous job may not. */
  lemma EraseMessageOrderly(s: State, q: nat, l: nat, i: nat)
    requires Orderly(s) && q < |s.clients| && l < |s.clients[q]| && i < |s.clients[q][l]|
    requires s.clients[q][l][i].conn.Some? && s.clients[q][l][i].conn.value in s.conns
    ensures Orderly(EraseMessage(s, q, l, i))
  {
    hide Registered, Unmatched, Unlink, Aside, Jobs, Flat;
    var t := SetClients(s, q, l, RemoveAt(s.clients[q][l], i));
    RemoveMessage(s.workers, s.clients, s.conns, q, l, i);
    RemoveSorted(s.clients[q][l], i, s.stamp);
    SetSorted(s.clients, q, l, RemoveAt(s.clients[q][l], i), s.stamp, s.stamp);
    hide Sorted;
    JobsRemoved(s.clients, q, l, i);
    OneJob(s.clients[q][l][i]);
    UnlinkAside(t, s.clients[q][l][i].conn.value);
    AsideOrderly(t, Unlink(t, s.clients[q][l][i].conn.value));
  }

  // client_request

  predicate StrictIds(conns: map<Connect, Conn>, left: map<Connect, Conn>) {
    && conns.Keys == left.Keys
    && forall c :: c in conns ==> left[c].connectionId == conns[c].connectionId && left[c].nloop == conns[c].nloop
  }

  /** No entry of this deque suits the request. */
  predicate Barren(s: State, q: nat, l: nat, required: string) {
    q < |s.workers| && l < |s.workers[q]| ==>
      forall i :: 0 <= i < |s.workers[q][l]| ==> Unsuited(s.conns, s.workers[q][l][i], required)
  }

  predicate Unsuited(conns: map<Connect, Conn>, w: Connect, required: string) {
    w in conns ==> !Suits(required, conns[w].connectionId)
  }

  /** A scan of one worker deque changes nothing but that deque and some link counts. */
  ghost predicate ScannedDeque(s: State, t: State, q: nat, l: nat) {
    && t.clients == s.clients && StrictIds(s.conns, t.conns)
    && |t.workers| == |s.workers|
    && (forall q' :: 0 <= q' < |s.workers| ==> |t.workers[q']| == |s.workers[q']|)
    && (forall q', l' :: 0 <= q' < |s.workers| && 0 <= l' < |s.workers[q']| && (q' != q || l' != l) ==>
          t.workers[q'][l'] == s.workers[q'][l'])
  }

  lemma EraseScanned(s: State, q: nat, l: nat, i: nat)
    requires q < |s.workers| && l < |s.workers[q]| && i < |s.workers[q][l]| && s.workers[q][l][i] in s.conns
    ensures ScannedDeque(s, EraseWorker(s, q, l, i), q, l)
    ensures EraseWorker(s, q, l, i).workers[q][l] == RemoveAt(s.workers[q][l], i)
  {
    hide Unlink;
    var t := SetWorkers(s, q, l, RemoveAt(s.workers[q][l], i));
    StrictUnlink(t, s.workers[q][l][i]);
  }

  lemma StrictUpd(conns: map<Connect, Conn>, c: Connect, v: Conn)
    requires c in conns && v.connectionId == conns[c].connectionId && v.nloop == conns[c].nloop
    ensures StrictIds(conns, conns[c := v])
  {
  }

  lemma StrictUnlink(s: State, c: Connect)
    requires c in s.conns
    ensures StrictIds(s.conns, Unlink(s, c).conns)
    ensures Unlink(s, c) == s.(conns := Unlink(s, c).conns, dead := Unlink(s, c).dead, fault := Unlink(s, c).fault)
  {
    hide StrictIds;
    StrictUpd(s.conns, c, s.conns[c].(link := s.conns[c].link - 1));
  }

  lemma ScannedTrans(s: State, t: State, u: State, q: nat, l: nat)
    requires ScannedDeque(s, t, q, l) && ScannedDeque(t, u, q, l)
    ensures ScannedDeque(s, u, q, l)
  {
  }

  lemma ScannedRefl(s: State, q: nat, l: nat)
    ensures ScannedDeque(s, s, q, l)
  {
  }

  lemma {:induction false} ScanWorkersOrderly(s: State, q: nat, l: nat, required: string, i: nat)
    requires Orderly(s) && Wf(s) && q < |s.workers| && l < s.threads && i <= |s.workers[q][l]|
    requires forall k :: 0 <= k < i ==> Unsuited(s.conns, s.workers[q][l][k], required)
    ensures var r := ScanWorkers(s, q, l, required, i);
      && Orderly(r.s) && ScannedDeque(s, r.s, q, l)
      && (r.NoWorker? ==> Barren(r.s, q, l, required))
      && (r.FoundWorker? ==>
            && r.l == l && r.s.workers[q][l][r.i] in r.s.conns
            && Suits(required, r.s.conns[r.s.workers[q][l][r.i]].connectionId))
    decreases |s.workers[q][l]| - i
  {
    hide Orderly, Grounded, ScannedDeque, Ready, Unlink;
    var d := s.workers[q][l];
    ScannedRefl(s, q, l);
    if i < |d| {
      GroundedEntry(s, q, l, i);
      if !Suits(required, s.conns[d[i]].connectionId) {
        ScanWorkersOrderly(s, q, l, required, i + 1);
      } else if !Ready(s.conns[d[i]]) {
        EraseWorkerWf(s, q, l, i);
        EraseWorkerOrderly(s, q, l, i);
        EraseScanned(s, q, l, i);
        ErasedWorkers(s, q, l, i);
        ScannedIds(s, EraseWorker(s, q, l, i), q, l);
        var t := EraseWorker(s, q, l, i);
        hide EraseWorker;
        assert forall k :: 0 <= k < i ==> t.workers[q][l][k] == d[k];
        ScanWorkersOrderly(t, q, l, required, i);
        ScannedTrans(s, t, ScanWorkers(t, q, l, required, i).s, q, l);
      }
    }
  }

  lemma GroundedEntry(s: State, q: nat, l: nat, i: nat)
    requires Wf(s) && q < |s.workers| && l < |s.workers[q]| && i < |s.workers[q][l]|
    ensures s.workers[q][l][i] in s.conns
  {
  }

  predicate Visited(l: nat, index: int, local: nat) {
    l < index || (l == local && index > -1)
  }

  lemma StaysBarren(s: State, t: State, q: nat, l: nat, l': nat, required: string)
    requires ScannedDeque(s, t, q, l) && l' != l && Barren(s, q, l', required)
    ensures Barren(t, q, l', required)
  {
  }

  lemma NextBarren(s: State, t: State, q: nat, l: nat, local: nat, required: string, index: int)
    requires ScannedDeque(s, t, q, l) && Barren(t, q, l, required) && -1 <= index && index != local
    requires l == LoopAt(index, local)
    requires forall k: nat :: k < s.threads && Visited(k, index, local) ==> Barren(s, q, k, required)
    ensures forall k: nat :: k < s.threads && Visited(k, index + 1, local) ==> Barren(t, q, k, required)
  {
    hide Barren, ScannedDeque;
    forall k: nat | k < s.threads && Visited(k, index + 1, local) ensures Barren(t, q, k, required) {
      if k != l {
        StaysBarren(s, t, q, l, k, required);
      }
    }
  }

  lemma StrictRefl(a: map<Connect, Conn>)
    ensures StrictIds(a, a)
  {
  }

  lemma ScannedIds(s: State, t: State, q: nat, l: nat)
    requires ScannedDeque(s, t, q, l)
    ensures StrictIds(s.conns, t.conns)
  {
  }

  lemma AllVisited(s: State, q: nat, local: nat, required: string, index: int)
    requires index >= s.threads
    requires forall l: nat :: l < s.threads && Visited(l, index, local) ==> Barren(s, q, l, required)
    ensures forall l: nat :: l < s.threads ==> Barren(s, q, l, required)
  {
    hide Barren;
  }

  lemma SkipVisited(s: State, q: nat, local: nat, required: string)
    requires forall l: nat :: l < s.threads && Visited(l, local, local) ==> Barren(s, q, l, required)
    ensures forall l: nat :: l < s.threads && Visited(l, local + 1, local) ==> Barren(s, q, l, required)
  {
    hide Barren;
  }

  lemma StrictTrans(a: map<Connect, Conn>, b: map<Connect, Conn>, c: map<Connect, Conn>)
    requires StrictIds(a, b) && StrictIds(b, c)
    ensures StrictIds(a, c)
  {
  }

  lemma {:induction false} FindWorkerOrderly(s: State, q: nat, local: nat, required: string, index: int)
    requires Orderly(s) && Wf(s) && q < |s.workers| && local < s.threads && -1 <= index
    requires forall l: nat :: l < s.threads && Visited(l, index, local) ==> Barren(s, q, l, required)
    ensures var r := FindWorker(s, q, local, required, index);
      && Orderly(r.s)
      && (r.NoWorker? ==> forall l: nat :: l < s.threads ==> Barren(r.s, q, l, required))
      && (r.FoundWorker? ==>
            r.s.workers[q][r.l][r.i] in r.s.conns && Suits(required, r.s.conns[r.s.workers[q][r.l][r.i]].connectionId))
      && StrictIds(s.conns, r.s.conns)
    decreases s.threads - index
  {
    hide Orderly, Grounded, Barren, ScanWorkers, Suits, StrictIds, Visited, ScannedDeque;
    StrictRefl(s.conns);
    if index < s.threads {
      if index == local {
        SkipVisited(s, q, local, required);
        FindWorkerOrderly(s, q, local, required, index + 1);
      } else {
        var l := LoopAt(index, local);
        ScanWorkersOrderly(s, q, l, required, 0);
        match ScanWorkers(s, q, l, required, 0)
        case FoundWorker(t, l', i) =>
          ScannedIds(s, t, q, l);
        case NoWorker(t) =>
          NextBarren(s, t, q, l, local, required, index);
          ScannedIds(s, t, q, l);
          FindWorkerOrderly(t, q, local, required, index + 1);
          StrictTrans(s.conns, t.conns, FindWorker(t, q, local, required, index + 1).s.conns);
      }
    } else {
      AllVisited(s, q, local, required, index);
    }
  }

  lemma {:induction false} SlotStops(d: seq<Msg>, priority: int, n: nat)
    requires n <= |d|
    ensures var i := Slot(d, priority, n);
      && (i > 0 ==> priority <= d[i - 1].priority)
      && (forall k :: i <= k < n ==> d[k].priority < priority)
  {
    if n > 0 && priority > d[n - 1].priority {
      SlotStops(d, priority, n - 1);
    }
  }

  /** What is before the chosen position has at least this priority, and what is after it less. */
  lemma SlotSplits(d: seq<Msg>, priority: int, stamp: nat)
    requires SortedDeque(d, stamp)
    ensures var i := Slot(d, priority, |d|);
      && (forall k :: 0 <= k < i ==> priority <= d[k].priority)
      && (forall k :: i <= k < |d| ==> d[k].priority < priority)
  {
    var i := Slot(d, priority, |d|);
    SlotStops(d, priority, |d|);
    forall k | 0 <= k < i ensures priority <= d[k].priority {
      assert k == i - 1 || Precedes(d[k], d[i - 1]);
    }
  }

  lemma SlotSorted(d: seq<Msg>, m: Msg, stamp: nat)
    requires SortedDeque(d, stamp) && m.stamp == stamp
    ensures SortedDeque(InsertAt(d, Slot(d, m.priority, |d|), m), stamp + 1)
  {
    var i := Slot(d, m.priority, |d|);
    SlotSplits(d, m.priority, stamp);
    InsertSorted(d, i, m, stamp);
  }

  lemma InsertUnmatched(workers: Deques<Connect>, clients: Deques<Msg>, conns: map<Connect, Conn>, q: nat,
                        l: nat, i: nat, m: Msg)
    requires Unmatched(workers, clients, conns) && q < |clients| && l < |clients[q]| && i <= |clients[q][l]|
    requires q < |workers| ==>
      forall l', k :: 0 <= l' < |workers[q]| && 0 <= k < |workers[q][l']| ==> Apart(conns, workers[q][l'][k], m)
    ensures Unmatched(workers, SetAt(clients, q, l, InsertAt(clients[q][l], i, m)), conns)
  {
    hide Apart;
    var t := SetAt(clients, q, l, InsertAt(clients[q][l], i, m));
    forall q', l', i', k, j |
      && 0 <= q' < |workers| && 0 <= l' < |workers[q']| && 0 <= i' < |workers[q'][l']|
      && q' < |t| && 0 <= k < |t[q']| && 0 <= j < |t[q'][k]|
      ensures Apart(conns, workers[q'][l'][i'], t[q'][k][j])
    {
      if q' == q && k == l {
        var d := clients[q][l];
        assert t[q][l][j] == (if j < i then d[j] else if j == i then m else d[j - 1]);
      }
    }
  }

  /** Queueing a message that no entry of the queue suits. */
  lemma EnqueueOrderly(s: State, q: nat, l: nat, m: Msg, accepted: multiset<Job>)
    requires Orderly(s) && q < |s.clients| == |s.workers| && l < |s.clients[q]| && m.stamp == s.stamp
    requires forall l': nat :: l' < |s.workers[q]| ==> Barren(s, q, l', m.required)
    requires accepted == s.accepted + Jobs([m])
    ensures Orderly(QueueMessage(s, q, l, m).(accepted := accepted))
  {
    hide Registered, Jobs, Flat, Delivered;
    OneJob(m);
    FreshIsNotHanded(s, JobOf(m));
    StampNext(s.accepted, s.stamp, JobOf(m));
    assert Stamped(accepted, s.stamp + 1);
    hide Stamped;
    var d := s.clients[q][l];
    var i := Slot(d, m.priority, |d|);
    assert SortedDeque(d, s.stamp);
    SlotSorted(d, m, s.stamp);
    LaterSorted(s.clients, s.stamp);
    SetSorted(s.clients, q, l, InsertAt(d, i, m), s.stamp, s.stamp + 1);
    forall l', k | 0 <= l' < |s.workers[q]| && 0 <= k < |s.workers[q][l']|
      ensures Apart(s.conns, s.workers[q][l'][k], m)
    {
      assert Barren(s, q, l', m.required);
      assert Unsuited(s.conns, s.workers[q][l'][k], m.required);
    }
    InsertUnmatched(s.workers, s.clients, s.conns, q, l, i, m);
    JobsInserted(s.clients, q, l, i, m);
    hide Unmatched, Sorted;
  }

  lemma LaterSorted(clients: Deques<Msg>, stamp: nat)
    requires Sorted(clients, stamp)
    ensures Sorted(clients, stamp + 1)
  {
    forall q, l | 0 <= q < |clients| && 0 <= l < |clients[q]| ensures SortedDeque(clients[q][l], stamp + 1) {
      assert SortedDeque(clients[q][l], stamp);
    }
  }

  /** A job handed over at once never sees a deque. */
  lemma HandedOrderly(s: State, w: Connect, v: Conn, job: Job)
    requires Orderly(s) && w in s.conns && job.stamp == s.stamp
    requires v.nloop == s.conns[w].nloop && v.connectionId == s.conns[w].connectionId
    requires Tasks(v.out) == Tasks(s.conns[w].out) + multiset{job}
    ensures Orderly(Upd(s, w, v).(stamp := s.stamp + 1, accepted := s.accepted + multiset{job},
                                  handed := s.handed + multiset{job}))
  {
    hide Registered, Unmatched, Jobs, Flat, Tasks;
    SameIdRegistered(s.workers, s.clients, s.conns, w, v);
    LaterSorted(s.clients, s.stamp);
    hide Sorted;
    FreshIsNotHanded(s, job);
    StampNext(s.accepted, s.stamp, job);
    HandOver(s.conns, s.buried, s.handed, w, v, job);
    hide Delivered, Stamped;
  }

  lemma SameIdRegistered(workers: Deques<Connect>, clients: Deques<Msg>, conns: map<Connect, Conn>, w: Connect, v: Conn)
    requires Registered(workers, conns) && Unmatched(workers, clients, conns) && w in conns
    requires v.nloop == conns[w].nloop && v.connectionId == conns[w].connectionId
    ensures Registered(workers, conns[w := v]) && Unmatched(workers, clients, conns[w := v])
  {
    var u := v.(out := conns[w].out);
    KeptRegistered(workers, conns, conns[w := u]);
    KeptUnmatched(workers, clients, conns, conns[w := u]);
    SameApart(workers, clients, conns[w := u], conns[w := v]);
  }

  lemma SameApart(workers: Deques<Connect>, clients: Deques<Msg>, a: map<Connect, Conn>, b: map<Connect, Conn>)
    requires Registered(workers, a) && Unmatched(workers, clients, a) && StrictIds(a, b)
    ensures Registered(workers, b) && Unmatched(workers, clients, b)
  {
    forall q, l, i, k, j |
      && 0 <= q < |workers| && 0 <= l < |workers[q]| && 0 <= i < |workers[q][l]|
      && q < |clients| && 0 <= k < |clients[q]| && 0 <= j < |clients[q][k]|
      ensures Apart(b, workers[q][l][i], clients[q][k][j])
    {
      assert Apart(a, workers[q][l][i], clients[q][k][j]);
    }
    forall q, l, i | 0 <= q < |workers| && 0 <= l < |workers[q]| && 0 <= i < |workers[q][l]|
      ensures Entry(b, workers[q][l][i], l)
    {
      assert Entry(a, workers[q][l][i], l);
    }
  }

  lemma Upd2Ids(s: State, a: Connect, va: Conn, b: Connect, vb: Conn)
    requires a in s.conns && b in s.conns && IdKept(s.conns[a], va)
    requires b == a ==> IdKept(s.conns[a], vb)
    requires b != a ==> IdKept(s.conns[b], vb)
    ensures IdsKept(s.conns, Upd2(s, a, va, b, vb).conns)
  {
  }

  lemma DispatchAsyncOrderly(t: State, w: Connect, c: Connect, name: string)
    requires Orderly(t) && w in t.conns && c in t.conns && w != c
    ensures Orderly(DispatchAsync(t, w, c, name))
  {
    hide Orderly, Beside;
    var v, u := t.conns[w], t.conns[c];
    var job := Job(t.stamp, name, u.body);
    var vw := Served(v, StatusAfterAsync(v), AsyncTask(job));
    TasksAppend(v.out, AsyncTask(job));
    HandedOrderly(t, w, vw, job);
    TasksAppend(u.out, AsyncAccepted);
    hide Tasks;
    var a := Upd(t, w, vw).(stamp := t.stamp + 1, accepted := t.accepted + multiset{job},
                            handed := t.handed + multiset{job});
    UpdBeside(a, c, Told(u, AsyncAccepted));
    BesideOrderly(a, Upd(a, c, Told(u, AsyncAccepted)));
  }

  lemma ServedBeside(t: State, w: Connect, vw: Conn, c: Connect, vc: Conn, wait: map<string, Connect>)
    requires w in t.conns && c in t.conns && w != c && IdKept(t.conns[w], vw) && IdKept(t.conns[c], vc)
    ensures Beside(t, Upd2(t, w, vw, c, vc).(wait := wait))
  {
    hide IdsKept, Hushed;
    Upd2Ids(t, w, vw, c, vc);
  }

  lemma DispatchLinkedOrderly(t: State, w: Connect, c: Connect, name: string)
    requires Orderly(t) && w in t.conns && c in t.conns && w != c
    ensures Orderly(DispatchLinked(t, w, c, name))
  {
    hide Orderly, Beside, Tasks;
    TasksAppend(t.conns[w].out, Task(name, t.conns[c].body));
    ServedBeside(t, w, ServedLinked(t.conns[w], c, Task(name, t.conns[c].body)), c, Called(t.conns[c], 1), t.wait);
    BesideOrderly(t, DispatchLinked(t, w, c, name));
  }

  lemma DispatchWithIdOrderly(t: State, w: Connect, c: Connect, name: string)
    requires Orderly(t) && w in t.conns && c in t.conns && w != c
    ensures Orderly(DispatchWithId(t, w, c, name))
  {
    hide Orderly, Beside, Tasks;
    var v, u := t.conns[w], t.conns[c];
    TasksAppend(v.out, TaskWithId(u.id, name, u.body));
    ServedBeside(t, w, ServedWithId(v, c, TaskWithId(u.id, name, u.body)), c, Called(u, LinksGiven(v)),
        t.wait[u.id := c]);
    BesideOrderly(t, DispatchWithId(t, w, c, name));
  }

  lemma ResolveIdAside(s: State, c: Connect, rnd: Entropy)
    requires c in s.conns
    ensures Aside(s, ResolveId(s, c, rnd))
  {
    hide ResolvedId, IdsKept, Hushed, Tasks;
    UpdAside(s, c, s.conns[c].(id := ResolvedId(s, c, rnd)));
  }

  /** An entry that goes back to the front of its deque. */
  lemma Reinsert(workers: Deques<Connect>, clients: Deques<Msg>, conns: map<Connect, Conn>, q: nat, l: nat, i: nat)
    requires Registered(workers, conns) && Unmatched(workers, clients, conns)
    requires q < |workers| && l < |workers[q]| && i < |workers[q][l]|
    ensures var w := workers[q][l][i];
      var t := SetAt(workers, q, l, InsertAt(RemoveAt(workers[q][l], i), 0, w));
      Registered(t, conns) && Unmatched(t, clients, conns)
      && w in conns && conns[w].nloop == l
  {
    var w := workers[q][l][i];
    assert Entry(conns, w, l);
    hide Entry, Apart;
  }

  /** Apart from its deque, an erased entry leaves everything that counts here in place. */
  lemma EraseAside(s: State, q: nat, l: nat, i: nat)
    requires q < |s.workers| && l < |s.workers[q]| && i < |s.workers[q][l]| && s.workers[q][l][i] in s.conns
    ensures Aside(s, EraseWorker(s, q, l, i).(workers := s.workers))
    ensures EraseWorker(s, q, l, i).workers == SetAt(s.workers, q, l, RemoveAt(s.workers[q][l], i))
  {
    hide IdsKept, Hushed, Unlink, RemoveAt, SetAt;
    var t := SetWorkers(s, q, l, RemoveAt(s.workers[q][l], i));
    UnlinkAside(t, s.workers[q][l][i]);
    ErasedWorkers(s, q, l, i);
  }

  lemma SetTwice<T>(ds: Deques<T>, q: nat, l: nat, d: seq<T>, e: seq<T>)
    requires q < |ds| && l < |ds[q]|
    ensures SetAt(SetAt(ds, q, l, d), q, l, e) == SetAt(ds, q, l, e)
  {
    assert ds[q][l := d][l := e] == ds[q][l := e];
    assert SetAt(SetAt(ds, q, l, d), q, l, e)[q] == SetAt(ds, q, l, e)[q];
  }

  /** u is s without the entry of w, apart from updates that do not matter here. */
  lemma RollbackOrderly(s: State, u: State, q: nat, l: nat, i: nat, c: Connect)
    requires Orderly(s) && q < |s.workers| && l < |s.workers[q]| && i < |s.workers[q][l]|
    requires Aside(s, u.(workers := s.workers)) && Wf(u) && c in u.conns
    requires u.workers == SetAt(s.workers, q, l, RemoveAt(s.workers[q][l], i))
    requires s.workers[q][l][i] in u.conns
    ensures Orderly(Rollback(u, q, s.workers[q][l][i], c))
  {
    hide Registered, Unmatched, Sorted, Jobs, Flat, Wf, Grounded, ConnsLive;
    var w := s.workers[q][l][i];
    Reinsert(s.workers, s.clients, s.conns, q, l, i);
    var back := SetAt(s.workers, q, l, InsertAt(RemoveAt(s.workers[q][l], i), 0, w));
    SetTwice(s.workers, q, l, RemoveAt(s.workers[q][l], i), InsertAt(RemoveAt(s.workers[q][l], i), 0, w));
    RelinkAside(u, q, w, c);
    hide Aside;
    AsideBack(s, u, Rollback(u, q, w, c), back);
    AsideOrderly(s.(workers := back), Rollback(u, q, w, c));
  }

  lemma AsideBack(s: State, u: State, t: State, back: Deques<Connect>)
    requires Aside(s, u.(workers := s.workers)) && Aside(u, t.(workers := u.workers)) && t.workers == back
    ensures Aside(s.(workers := back), t)
  {
    hide IdsKept, Hushed;
    AsideKeys(s, u.(workers := s.workers));
    IdsTrans(s.conns, u.conns, t.conns);
    HushedTrans(s.conns, u.conns, t.conns);
  }

  lemma HasLoop(u: State, q: nat, w: Connect)
    requires Wf(u) && q < |u.workers| && w in u.conns
    ensures u.conns[w].nloop < |u.workers[q]|
  {
    ConnIsLive(u, w);
  }

  lemma RelinkAside(u: State, q: nat, w: Connect, c: Connect)
    requires Wf(u) && q < |u.workers| && w in u.conns && c in u.conns
    ensures Aside(u, Rollback(u, q, w, c).(workers := u.workers))
    ensures var l := u.conns[w].nloop;
      l < |u.workers[q]| && Rollback(u, q, w, c).workers == SetAt(u.workers, q, l, InsertAt(u.workers[q][l], 0, w))
  {
    hide IdsKept, Hushed, Wf, Grounded, ConnsLive, InsertAt;
    ConnIsLive(u, w);
    HasLoop(u, q, w);
    var l := u.conns[w].nloop;
    UpdAside(u, w, u.conns[w].(link := u.conns[w].link + 1));
    var a := Link(u, w);
    AsideKeys(u, a);
    var b := SetWorkers(a, q, l, InsertAt(a.workers[q][l], 0, w));
    SendAside(b, c, CollisionId);
    IdsTrans(u.conns, a.conns, Send(b, c, CollisionId).conns);
    HushedTrans(u.conns, a.conns, Send(b, c, CollisionId).conns);
  }

  lemma IdsTrans(a: map<Connect, Conn>, b: map<Connect, Conn>, c: map<Connect, Conn>)
    requires IdsKept(a, b) && IdsKept(b, c)
    ensures IdsKept(a, c)
  {
  }

  lemma DispatchOrderly(s: State, q: nat, l: nat, i: nat, c: Connect, name: string, rnd: Entropy)
    requires Orderly(s) && Wf(s) && q < |s.workers| && l < s.threads && i < |s.workers[q][l]| && c in s.conns
    requires s.workers[q][l][i] in s.conns && s.workers[q][l][i] != c
    ensures Orderly(Dispatch(s, q, l, i, c, name, rnd))
  {
    hide Orderly, Aside, Grounded;
    var w := s.workers[q][l][i];
    EraseWorkerWf(s, q, l, i);
    EraseWorkerOrderly(s, q, l, i);
    EraseAside(s, q, l, i);
    var t := EraseWorker(s, q, l, i);
    hide EraseWorker;
    DispatchAsyncOrderly(t, w, c, name);
    DispatchLinkedOrderly(t, w, c, name);
    ResolveIdWf(t, c, rnd);
    ResolveIdAside(t, c, rnd);
    var u := ResolveId(t, c, rnd);
    AsideOrderly(t, u);
    DispatchWithIdOrderly(u, w, c, name);
    ErasedAside(s, t, u);
    ResolvedWorkers(t, c, rnd);
    RollbackOrderly(s, u, q, l, i, c);
  }

  lemma ResolvedWorkers(t: State, c: Connect, rnd: Entropy)
    requires c in t.conns
    ensures ResolveId(t, c, rnd).workers == t.workers
  {
  }

  lemma ErasedAside(s: State, t: State, u: State)
    requires Aside(s, t.(workers := s.workers)) && Aside(t, u)
    ensures Aside(s, u.(workers := s.workers))
  {
    hide IdsKept, Hushed;
    AsideKeys(s, t.(workers := s.workers));
    IdsTrans(s.conns, t.conns, u.conns);
    HushedTrans(s.conns, t.conns, u.conns);
  }

  lemma EnqueueCallOrderly(s: State, q: nat, c: Connect, name: string)
    requires Orderly(s) && Wf(s) && q < |s.clients| && c in s.conns
    requires forall l: nat :: l < s.threads ==> Barren(s, q, l, s.conns[c].requiredWorker)
    ensures Orderly(Enqueue(s, q, c, name))
  {
    var v := s.conns[c];
    hide Orderly, Wf, Aside, Barren, Jobs, Slot, Grounded, ConnsLive;
    if v.ifPresent && s.lists[q] == [] {
      SendAside(s, c, NoContent);
      AsideOrderly(s, Send(s, c, NoContent));
    } else {
      Home(s, q, c);
      EnqueuedOrderly(s, q, c, name);
    }
  }

  lemma Home(s: State, q: nat, c: Connect)
    requires Wf(s) && q < |s.clients| && c in s.conns
    ensures |s.clients| == |s.workers| && |s.clients[q]| == |s.workers[q]| == s.threads && s.conns[c].nloop < s.threads
  {
    ConnIsLive(s, c);
  }

  lemma EnqueuedOrderly(s: State, q: nat, c: Connect, name: string)
    requires Orderly(s) && Wf(s) && q < |s.clients| == |s.workers| && c in s.conns
    requires |s.clients[q]| == |s.workers[q]| == s.threads && s.conns[c].nloop < s.threads
    requires forall l: nat :: l < s.threads ==> Barren(s, q, l, s.conns[c].requiredWorker)
    requires !(s.conns[c].ifPresent && s.lists[q] == [])
    ensures Orderly(Enqueue(s, q, c, name))
  {
    var v := s.conns[c];
    hide Orderly, Wf, Aside, Barren, QueueMessage, Jobs, Grounded, ConnsLive;
    if v.noResponse {
      var m := AsyncMessage(s, v, name);
      OneJob(m);
      TasksAppend(v.out, AsyncAccepted);
      hide Tasks;
      UpdEnqueueOrderly(s, q, v.nloop, c, Told(v, AsyncAccepted).(requiredWorker := "", body := ""), m,
          s.accepted + Jobs([m]));
    } else {
      var m := SyncMessage(s, c, v);
      OneJob(m);
      var u := Called(v, 1).(requiredWorker := "", name := name);
      UpdEnqueueOrderly(s, q, v.nloop, c, u, m, s.accepted + Jobs([m]));
      assert s.accepted + Jobs([m]) == s.accepted;
      QueuedAccepted(Upd(s, c, u), q, v.nloop, m);
    }
  }

  lemma QueuedAccepted(s: State, q: nat, l: nat, m: Msg)
    requires q < |s.clients| && l < |s.clients[q]|
    ensures QueueMessage(s, q, l, m).accepted == s.accepted
  {
  }

  lemma UpdEnqueueOrderly(s: State, q: nat, l: nat, c: Connect, v: Conn, m: Msg, accepted: multiset<Job>)
    requires Orderly(s) && q < |s.clients| == |s.workers| && |s.clients[q]| == |s.workers[q]|
    requires l < |s.clients[q]| && m.stamp == s.stamp
    requires c in s.conns && v.nloop == s.conns[c].nloop && v.connectionId == s.conns[c].connectionId
    requires Tasks(v.out) == Tasks(s.conns[c].out)
    requires forall l': nat :: l' < |s.workers[q]| ==> Barren(s, q, l', m.required)
    requires accepted == s.accepted + Jobs([m])
    ensures Orderly(QueueMessage(Upd(s, c, v), q, l, m).(accepted := accepted))
  {
    hide Orderly, Beside, Jobs;
    UpdBeside(s, c, v);
    var t := Upd(s, c, v);
    BesideOrderly(s, t);
    forall l': nat | l' < |t.workers[q]| ensures Barren(t, q, l', m.required) {
      assert Barren(s, q, l', m.required);
      UpdBarren(s, c, v, q, l', m.required);
    }
    EnqueueOrderly(t, q, l, m, accepted);
  }

  lemma UpdBarren(s: State, c: Connect, v: Conn, q: nat, l: nat, required: string)
    requires c in s.conns && v.connectionId == s.conns[c].connectionId && Barren(s, q, l, required)
    ensures Barren(Upd(s, c, v), q, l, required)
  {
    if q < |s.workers| && l < |s.workers[q]| {
      forall i | 0 <= i < |s.workers[q][l]| ensures Unsuited(Upd(s, c, v).conns, s.workers[q][l][i], required) {
        assert Unsuited(s.conns, s.workers[q][l][i], required);
      }
    }
  }

  /** The state in which the call has been counted. */
  function Counted(s: State, c: Connect): State
    requires c in s.conns
  {
    Upd(s, c, s.conns[c].(calls := s.conns[c].calls + 1))
  }

  lemma CountedKeeps(s: State, c: Connect)
    requires Orderly(s) && Wf(s) && SaneBut(s, c) && c in s.conns
    ensures Orderly(Counted(s, c)) && Wf(Counted(s, c)) && SaneBut(Counted(s, c), c)
    ensures Counted(s, c).conns[c].status == s.conns[c].status
  {
    hide Orderly, Aside, Wf, Balanced, ConnOk, Grounded, ConnsLive;
    var v := s.conns[c].(calls := s.conns[c].calls + 1);
    ConnIsLive(s, c);
    UpdAside(s, c, v);
    UpdWf(s, c, v);
    BalancedUpd(s, c, v, multiset{}, multiset{});
    AsideOrderly(s, Upd(s, c, v));
  }

  lemma ClientRequestOrderly(s: State, c: Connect, name: string, rnd: Entropy)
    requires Orderly(s) && Wf(s) && SaneBut(s, c) && c in s.conns && s.conns[c].status != WorkerWaitJob
    ensures Orderly(ClientRequest(s, c, name, rnd))
  {
    hide Orderly, Aside, Grounded, Seek, SaneBut;
    CountedKeeps(s, c);
    var s1 := Counted(s, c);
    match FoundQueue(s1, name)
    case None =>
      SendAside(s1, c, NotFound);
      AsideOrderly(s1, Send(s1, c, NotFound));
    case Some(q) => SeekOrderly(s1, q, c, name, rnd);
  }

  lemma SeekOrderly(s: State, q: nat, c: Connect, name: string, rnd: Entropy)
    requires Orderly(s) && Wf(s) && SaneBut(s, c) && s.conns[c].status != WorkerWaitJob && q < |s.lists|
    ensures Orderly(Seek(s, q, c, name, rnd))
  {
    hide Orderly, Balanced, ConnOk, FindWorker, Dispatch, Enqueue, Barren, Grounded;
    var v := s.conns[c];
    ConnIsLive(s, c);
    FindWorkerOrderly(s, q, v.nloop, v.requiredWorker, -1);
    FindWorkerSane(s, q, v.nloop, v.requiredWorker, -1, c);
    var r := FindWorker(s, q, v.nloop, v.requiredWorker, -1);
    assert Core(r.s.conns[c]) == Core(v);
    match r
    case NoWorker(t) => EnqueueCallOrderly(t, q, c, name);
    case FoundWorker(t, l, i) => DispatchOrderly(t, q, l, i, c, name, rnd);
  }
}
