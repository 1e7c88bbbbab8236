/** The life of a connection: accept, requests, results, disconnect, timeouts and clean-up. */
module Sessions {
  import opened Connections
  import opened Deques
  import opened Names
  import opened BrokerState
  import opened Common
  import opened ClientRequests
  import opened WorkerRequests
  import opened Invariants

  // Results

  datatype Delivery = Delivery(s: State, code: int)

  /** worker_result: code 0 delivered, -1 unknown id, -2 client gone. No worker means 503. */
  function WorkerResult(s: State, id: string, body: Option<string>): (r: Delivery)
    requires Wf(s)
    ensures SameFrame(s, r.s)
  {
    if id !in s.wait then Delivery(s, -1)
    else
      var c := s.wait[id];
      RemoveWaitWf(s, id);
      var t := s.(wait := s.wait - {id});
      UnlinkWf(t, c);
      var u := Unlink(t, c);
      if u.conns[c].closed then Delivery(u, -2)
      else
        var reply := if body.Some? then AnswerWithId(id, body.value) else Unavailable;
        SendWf(u, c, reply);
        SetStatusWf(Send(u, c, reply), c, Net);
        Delivery(SetStatus(Send(u, c, reply), c, Net), 0)
  }

  lemma RemoveWaitWf(s: State, id: string)
    requires Wf(s)
    ensures SameFrame(s, s.(wait := s.wait - {id}))
  {
    hide WorkersLive, ClientsLive, ListsLive, ConnsLive;
  }

  /** A worker that is not in worker mode stops being a worker without ids once it has answered. */
  function Released(v: Conn): Conn {
    if v.workerMode then v.(client := None)
    else v.(client := None, noid := false, failOnDisconnect := false)
  }

  lemma FaultWf(s: State)
    requires Wf(s)
    ensures SameFrame(s, s.(fault := true))
  {
    hide WorkersLive, ClientsLive, ListsLive, WaitLive, ConnsLive;
  }

  /** worker_result_noid: code 0 delivered, -2 client gone. */
  function WorkerResultNoid(s: State, w: Connect): (r: Delivery)
    requires Wf(s) && w in s.conns
    ensures SameFrame(s, r.s)
  {
    hide Wf, Grounded, ConnsLive;
    var v := s.conns[w];
    if v.client.None? then
      FaultWf(s);
      Delivery(s.(fault := true), 0)
    else
      var c := v.client.value;
      ConnIsLive(s, w);
      UpdWf(s, w, Released(v));
      var t := Upd(s, w, Released(v));
      UnlinkWf(t, c);
      var u := Unlink(t, c);
      if u.conns[c].closed then Delivery(u, -2)
      else
        SetStatusWf(u, c, Net);
        SendWf(SetStatus(u, c, Net), c, Answer(v.body));
        Delivery(Send(SetStatus(u, c, Net), c, Answer(v.body)), 0)
  }

  // Disconnect

  /** The part of on_disconnect that forgets an unanswered call of this connection. */
  function ForgetCall(s: State, c: Connect): (t: State)
    requires Wf(s) && c in s.conns
    ensures SameFrame(s, t)
  {
    var v := s.conns[c];
    if v.status == ClientWaitResult && v.id != "" && v.id in s.wait then
      RemoveWaitWf(s, v.id);
      UnlinkWf(s.(wait := s.wait - {v.id}), c);
      Unlink(s.(wait := s.wait - {v.id}), c)
    else s
  }

  /** The part of on_disconnect that fails the call this worker was serving. */
  function FailServed(s: State, c: Connect): (t: State)
    requires Wf(s) && c in s.conns
    ensures SameFrame(s, t)
  {
    var v := s.conns[c];
    if v.noid then
      if v.status == WorkerWaitResult then
        if v.client.None? then
          FaultWf(s);
          s.(fault := true)
        else
          var d := v.client.value;
          SendWf(s, d, Unavailable);
          var a := if s.conns[d].closed then s else Send(s, d, Unavailable);
          SetStatusWf(a, d, Net);
          SetStatus(a, d, Net)
      else if v.client.Some? then
        FaultWf(s);
        s.(fault := true)
      else s
    else if v.client.Some? then WorkerResult(s, s.conns[v.client.value].id, None).s
    else s
  }

  function DropClient(s: State, c: Connect): (t: State)
    requires Wf(s) && c in s.conns
    ensures SameFrame(s, t)
  {
    if s.conns[c].client.None? then s
    else
      var d := s.conns[c].client.value;
      SetClientWf(s, c, None);
      UnlinkWf(SetClient(s, c, None), d);
      Unlink(SetClient(s, c, None), d)
  }

  /** The part of on_disconnect that takes c out of a worker list and forgets its own call. */
  function Forget(s: State, c: Connect): (t: State)
    requires Wf(s) && c in s.conns
    ensures SameFrame(s, t)
  {
    hide WorkersLive, ClientsLive, ListsLive, WaitLive;
    PopItemWf(s, c);
    ForgetCall(PopItem(s, c), c)
  }

  function OnDisconnect(s: State, c: Connect): (t: State)
    requires Wf(s) && c in s.conns
    ensures SameFrame(s, t)
  {
    hide WorkersLive, ClientsLive, ListsLive, WaitLive, ConnsLive;
    var a := Forget(s, c);
    if a.conns[c].failOnDisconnect then DropClient(FailServed(a, c), c) else a
  }

  /** _close: the connection is marked closed, its duties are settled, and it leaves the table. */
  function Disconnect(s: State, c: Connect): (t: State)
    requires Wf(s) && c in s.conns
    ensures SameFrame(s, t)
  {
    hide WorkersLive, ClientsLive, ListsLive, WaitLive, ConnsLive;
    SetClosedWf(s, c);
    var a := OnDisconnect(SetClosed(s, c), c);
    UnlinkWf(a, c);
    LeaveTableWf(Unlink(a, c), c);
    LeaveTable(Unlink(a, c), c)
  }

  function SetClosed(s: State, c: Connect): State
    requires c in s.conns
  {
    Upd(s, c, s.conns[c].(closed := true))
  }

  function LeaveTable(s: State, c: Connect): State {
    s.(table := s.table - {c})
  }

  lemma SetClosedWf(s: State, c: Connect)
    requires Wf(s) && c in s.conns
    ensures SameFrame(s, SetClosed(s, c))
  {
    UpdWf(s, c, s.conns[c].(closed := true));
  }

  lemma LeaveTableWf(s: State, c: Connect)
    requires Wf(s)
    ensures SameFrame(s, LeaveTable(s, c))
  {
    hide WorkersLive, ClientsLive, ListsLive, WaitLive, ConnsLive;
  }

  // Requests

  datatype Kind = Echo | Call | AsyncCall | Add | AddWorkerMode | Result

  /** A parsed request: header fields, and what the handlers look up in the JSON body. */
  datatype Request = Request(
    kind: Kind,
    name: string,            // the queue name or names; in worker mode a "name" header, if any
    id: string,              // the "id" header
    jsonId: string,          // the "id" in the path of a result, or in the JSON body
    setId: string,           // the "set-id" header
    body: string,
    priority: int,
    requiredWorker: string,
    ifPresent: bool,
    stop: bool,
    noid: bool,              // type "get+" or option "no_id"
    failOnDisconnect: bool,  // option "fail_on_disconnect"
    ping: nat,
    broken: bool)            // scanning the body ends in an error; the fields hold what came before it

  /** What the first line of a request resets. */
  function Fresh(v: Conn): Conn {
    var f := v.(body := "", id := "", jsonId := "", priority := 0, requiredWorker := "", noResponse := false,
                ifPresent := false, started := true);
    if v.workerMode then f else f.(name := "")
  }

  /** The start of a request; a worker whose registration broke off is thrown out. */
  function Begin(s: State, c: Connect): (t: State)
    requires Wf(s) && c in s.conns
    ensures SameFrame(s, t)
  {
    var v := s.conns[c];
    if v.status == WorkerWaitResult then
      if !v.noid then Disconnect(s, c)
      else
        UpdWf(s, c, Fresh(v));
        Upd(s, c, Fresh(v))
    else if v.workerMode then
      if v.status != WorkerModeAsync then Disconnect(s, c)
      else
        UpdWf(s, c, Fresh(v));
        Upd(s, c, Fresh(v))
    else
      var f := Fresh(v).(failOnDisconnect := false, noid := false);
      UpdWf(s, c, f);
      DropClient(Upd(s, c, f), c)
  }

  /** The fields a connection takes from the headers and the body. */
  function Filled(v: Conn, r: Request, now: nat): Conn {
    v.(started := false, body := r.body, id := r.id, jsonId := r.jsonId, priority := r.priority,
       requiredWorker := r.requiredWorker, ifPresent := r.ifPresent,
       name := if r.name != "" && (v.workerMode || r.kind != Call) then r.name else v.name,
       connectionId := if r.setId != "" then r.setId else v.connectionId,
       ping := if r.ping > 0 then r.ping else v.ping,
       pingTimeout := if r.ping > 0 then now + r.ping else if v.ping > 0 then now + v.ping else v.pingTimeout)
  }

  /** In worker mode a connection always registers as a worker without ids. */
  function Engaged(v: Conn): Conn {
    if v.workerMode then v.(noid := true, failOnDisconnect := true) else v
  }

  /** rpc_add: registers under the names the connection carries. */
  function RpcAdd(s: State, c: Connect, rnd: Entropy): (t: State)
    requires Wf(s) && c in s.conns
    ensures Wf(t) && t.conns.Keys == s.conns.Keys && t.threads == s.threads
  {
    hide WorkersLive, ClientsLive, ListsLive, WaitLive;
    var v := s.conns[c];
    if v.name == "" then
      UpdWf(s, c, v.(workerMode := false));
      SendWf(Upd(s, c, v.(workerMode := false)), c, NoName);
      Send(Upd(s, c, v.(workerMode := false)), c, NoName)
    else
      var u := Engaged(v);
      UpdWf(s, c, u);
      AddWorkers(Upd(s, c, u), c, SplitNames(v.name, 0, 0), rnd)
  }

  /** A worker-mode connection answers its current job, if any, and asks for the next one or stops. */
  function NextJob(s: State, c: Connect, stop: bool, rnd: Entropy): (t: State)
    requires Wf(s) && c in s.conns
    ensures Wf(t) && t.conns.Keys == s.conns.Keys && t.threads == s.threads
  {
    var a := if s.conns[c].status != WorkerModeAsync then WorkerResultNoid(s, c).s else s;
    if stop then
      StopWf(a, c);
      Stop(a, c)
    else RpcAdd(a, c, rnd)
  }

  function Stop(a: State, c: Connect): (t: State)
    requires Wf(a) && c in a.conns
  {
    PopItemWf(a, c);
    var b := PopItem(a, c);
    SetStatus(Send(Upd(b, c, b.conns[c].(workerMode := false)), c, Ok), c, Net)
  }

  lemma StopWf(a: State, c: Connect)
    requires Wf(a) && c in a.conns
    ensures SameFrame(a, Stop(a, c))
  {
    hide WorkersLive, ClientsLive, ListsLive, WaitLive;
    PopItemWf(a, c);
    var b := PopItem(a, c);
    UpdWf(b, c, b.conns[c].(workerMode := false));
    var d := Upd(b, c, b.conns[c].(workerMode := false));
    SendWf(d, c, Ok);
    SetStatusWf(Send(d, c, Ok), c, Net);
  }

  /** A worker without ids owes a result before anything else. */
  function FinishJob(s: State, c: Connect, isResult: bool): (t: State)
    requires Wf(s) && c in s.conns
    ensures SameFrame(s, t)
  {
    if !isResult then
      SendWf(s, c, ResultExpected);
      Send(s, c, ResultExpected)
    else
      var r := WorkerResultNoid(s, c);
      Acknowledge(r.s, c, r.code)
  }

  /** The reply to a result, by the code of its delivery. */
  function Acknowledge(s: State, c: Connect, code: int): (t: State)
    requires Wf(s) && c in s.conns
    ensures SameFrame(s, t)
  {
    var reply := if code == 0 then Ok else if code == -2 then ClientGone else WrongId;
    SendWf(s, c, reply);
    SetStatusWf(Send(s, c, reply), c, Net);
    SetStatus(Send(s, c, reply), c, Net)
  }

  /** rpc_result: the id comes from the header, or from the path or the body. */
  function RpcResult(s: State, c: Connect): (t: State)
    requires Wf(s) && c in s.conns
    ensures SameFrame(s, t)
  {
    var v := s.conns[c];
    var id := if v.id != "" then v.id else v.jsonId;
    if id == "" then
      SendWf(s, c, NoId);
      SetStatusWf(Send(s, c, NoId), c, Net);
      SetStatus(Send(s, c, NoId), c, Net)
    else
      var r := WorkerResult(s, id, Some(v.body));
      Acknowledge(r.s, c, r.code)
  }

  function Marked(v: Conn, r: Request): Conn {
    var adds := r.kind in {Add, AddWorkerMode};
    v.(noResponse := r.kind == AsyncCall && !r.broken,
       noid := v.noid || (adds && r.noid),
       failOnDisconnect := v.failOnDisconnect || (adds && (r.noid || r.failOnDisconnect)),
       workerMode := v.workerMode || r.kind == AddWorkerMode,
       spoilt := v.spoilt || (r.kind == AddWorkerMode && r.broken))
  }

  /** header_completed: the request has arrived in full. */
  function Complete(s: State, c: Connect, r: Request, now: nat, rnd: Entropy): (t: State)
    requires Wf(s) && c in s.conns
  {
    hide WorkersLive, ClientsLive, ListsLive, WaitLive;
    var f := Filled(s.conns[c], r, now);
    UpdWf(s, c, f);
    var a := Upd(s, c, f);
    if r.kind == Echo then Send(a, c, Ok)
    else if f.workerMode then NextJob(a, c, r.stop, rnd)
    else if f.noid then FinishJob(a, c, r.kind == Result)
    else
      UpdWf(a, c, Marked(f, r));
      Perform(Upd(a, c, Marked(f, r)), c, r, rnd)
  }

  /** The handler comes to the place where the body is broken; a result whose id is known is not looked up there. */
  predicate BreaksOff(v: Conn, r: Request) {
    r.broken && (r.kind == Result ==> v.id == "" && v.jsonId == "")
  }

  function Perform(s: State, c: Connect, r: Request, rnd: Entropy): (t: State)
    requires Wf(s) && c in s.conns && r.kind != Echo
  {
    if BreaksOff(s.conns[c], r) then Send(s, c, InvalidData)
    else Handled(s, c, r, rnd)
  }

  function Handled(s: State, c: Connect, r: Request, rnd: Entropy): (t: State)
    requires Wf(s) && c in s.conns && r.kind != Echo
  {
    match r.kind
    case Call => ClientRequest(s, c, r.name, rnd)
    case AsyncCall => ClientRequest(s, c, r.name, rnd)
    case Add => RpcAdd(s, c, rnd)
    case AddWorkerMode => RpcAdd(s, c, rnd)
    case Result => RpcResult(s, c)
  }

  // Periodic work

  /** _check_timeout for one deque entry. */
  function TimeoutOne(s: State, w: Connect, now: nat): (t: State)
    requires Wf(s) && w in s.conns
    ensures SameFrame(s, t) && t.workers == s.workers
  {
    var v := s.conns[w];
    if v.ping == 0 || v.pingTimeout > now || !Ready(v) then s
    else
      hide WorkersLive, ClientsLive, ListsLive, WaitLive;
      var u := v.(status := StatusAfterAsync(v), pingTimeout := now + v.ping);
      UpdWf(s, w, u);
      SendWf(Upd(s, w, u), w, Timeout);
      Send(Upd(s, w, u), w, Timeout)
  }

  function TimeoutAll(s: State, ws: seq<Connect>, now: nat): (t: State)
    requires Wf(s) && forall i :: 0 <= i < |ws| ==> ws[i] in s.conns
    ensures SameFrame(s, t) && t.workers == s.workers
    decreases |ws|
  {
    if ws == [] then s else TimeoutAll(TimeoutOne(s, ws[0], now), ws[1..], now)
  }

  /** _check_timeout: every entry of every deque, in order. */
  function CheckTimeout(s: State, now: nat): (t: State)
    requires Wf(s)
    ensures SameFrame(s, t)
  {
    FlatLive(s.workers, s.conns.Keys);
    TimeoutAll(s, Flat(s.workers), now)
  }

  lemma {:induction false} JoinLive(ss: seq<seq<Connect>>, live: set<Connect>)
    requires forall l, i :: 0 <= l < |ss| && 0 <= i < |ss[l]| ==> ss[l][i] in live
    ensures forall i :: 0 <= i < |Join(ss)| ==> Join(ss)[i] in live
  {
    if ss != [] {
      JoinLive(ss[1..], live);
    }
  }

  lemma {:induction false} FlatLive(ds: Deques<Connect>, live: set<Connect>)
    requires WorkersLive(ds, live)
    ensures forall i :: 0 <= i < |Flat(ds)| ==> Flat(ds)[i] in live
  {
    if ds != [] {
      JoinLive(ds[0], live);
      FlatLive(ds[1..], live);
    }
  }

  /** The janitor's pass over one worker deque. */
  function CleanWorkers(s: State, q: nat, l: nat, i: nat): (t: State)
    requires Wf(s) && q < |s.workers| && l < s.threads && i <= |s.workers[q][l]|
    ensures SameFrame(s, t)
    decreases |s.workers[q][l]| - i
  {
    var d := s.workers[q][l];
    if i >= |d| then s
    else if !Ready(s.conns[d[i]]) then
      EraseWorkerWf(s, q, l, i);
      CleanWorkers(EraseWorker(s, q, l, i), q, l, i)
    else CleanWorkers(s, q, l, i + 1)
  }

  predicate Stale(s: State, m: Msg)
    requires MsgLive(m, s.conns.Keys)
  {
    m.conn.Some? && (s.conns[m.conn.value].closed || s.conns[m.conn.value].status != ClientWaitResult)
  }

  /** The janitor's pass over one client deque. */
  function CleanClients(s: State, q: nat, l: nat, i: nat): (t: State)
    requires Wf(s) && q < |s.clients| && l < s.threads && i <= |s.clients[q][l]|
    ensures SameFrame(s, t)
    decreases |s.clients[q][l]| - i
  {
    var d := s.clients[q][l];
    if i >= |d| then s
    else if Stale(s, d[i]) then
      EraseMessageWf(s, q, l, i);
      CleanClients(EraseMessage(s, q, l, i), q, l, i)
    else CleanClients(s, q, l, i + 1)
  }

  function CleanLine(s: State, q: nat, l: nat): (t: State)
    requires Wf(s) && q < |s.lists|
    ensures SameFrame(s, t)
    decreases s.threads - l
  {
    if l >= s.threads then s else CleanLine(CleanClients(CleanWorkers(s, q, l, 0), q, l, 0), q, l + 1)
  }

  /** _clean_dead_tasks: queues whose lock is busy are skipped. */
  function Clean(s: State, q: nat, locked: set<nat>): (t: State)
    requires Wf(s)
    ensures SameFrame(s, t)
    decreases |s.lists| - q
  {
    if q >= |s.lists| then s
    else if q in locked then Clean(s, q + 1, locked)
    else Clean(CleanLine(s, q, 0), q + 1, locked)
  }

  // Birth and death

  function Accept(s: State, c: Connect, loop: nat): State {
    s.(conns := s.conns[c := NewConnection(loop)], table := s.table + {c})
  }

  /** The dead connections that this loop frees. */
  function Victims(s: State, loop: nat): set<Connect> {
    set c | c in s.dead && c in s.conns && s.conns[c].nloop == loop && s.conns[c].link == 0
  }

  function DeadElsewhere(s: State, dead: seq<Connect>, loop: nat): seq<Connect>
    requires forall i :: 0 <= i < |dead| ==> dead[i] in s.conns
  {
    if dead == [] then []
    else (if s.conns[dead[0]].nloop == loop then [] else [dead[0]]) + DeadElsewhere(s, dead[1..], loop)
  }

  /** _delete_connections of one loop; the jobs that were sent on these connections stay on record. */
  ghost function DeleteConnections(s: State, loop: nat): State
    requires Wf(s)
  {
    s.(conns := s.conns - Victims(s, loop), dead := DeadElsewhere(s, s.dead, loop),
       buried := s.buried + Carried(Among(s.conns, Victims(s, loop))))
  }

  // Runs

  datatype Event =
    | Accepted(c: Connect, loop: nat)
    | Begun(c: Connect)
    | Completed(c: Connect, r: Request, now: nat, rnd: Entropy)
    | Disconnected(c: Connect)
    | TimedOut(now: nat)
    | Cleaned(locked: set<nat>)
    | Deleted(loop: nat)

  /** An entry under the connection's own id belongs to it (the code looks it up by id alone). */
  predicate OwnEntry(s: State, c: Connect)
    requires c in s.conns
  {
    var v := s.conns[c];
    v.status == ClientWaitResult && v.id in s.wait ==> s.wait[v.id] == c
  }

  /** No message that could go to a worker of this id, if it is one, waits where c has an entry. */
  predicate Unclaimed(s: State, c: Connect, id: string) {
    id != "" ==>
      forall q, l, k, j ::
        && 0 <= q < |s.workers| && 0 <= l < |s.workers[q]| && c in s.workers[q][l]
        && q < |s.clients| && 0 <= k < |s.clients[q]| && 0 <= j < |s.clients[q][k]|
        ==> !Suits(s.clients[q][k][j].required, id)
  }

  predicate Enabled(s: State, e: Event) {
    match e
    case Accepted(c, loop) => c !in s.conns && loop < s.threads
    case Begun(c) => c in s.conns && c in s.table && !s.conns[c].started && Listens(s.conns[c])
    case Completed(c, r, now, rnd) =>
      && c in s.conns && c in s.table && s.conns[c].started && Listens(s.conns[c])
      && Unclaimed(s, c, r.setId)
    case Disconnected(c) => c in s.conns && c in s.table && OwnEntry(s, c)
    case TimedOut(now) => true
    case Cleaned(locked) => true
    case Deleted(loop) => loop < s.threads
  }

  ghost function Step(s: State, e: Event): (t: State)
    requires Wf(s) && Enabled(s, e)
  {
    match e
    case Accepted(c, loop) => Accept(s, c, loop)
    case Begun(c) => Begin(s, c)
    case Completed(c, r, now, rnd) => Complete(s, c, r, now, rnd)
    case Disconnected(c) => Disconnect(s, c)
    case TimedOut(now) => CheckTimeout(s, now)
    case Cleaned(locked) => Clean(s, 0, locked)
    case Deleted(loop) => DeleteConnections(s, loop)
  }
}
