/**
 Connections and what the server appends to their send buffers.
 */
module Connections {

  datatype Option<+T> = None | Some(value: T)

  datatype Status =
    | Net
    | WorkerWaitJob
    | WorkerWaitResult
    | Migration
    | ClientWaitResult
    | Busy
    | WorkerModeAsync

  /** An asynchronous job; the stamp tells apart jobs with equal contents. */
  datatype Job = Job(stamp: nat, name: string, body: string)

  /** One response written to a connection's send buffer. */
  datatype Reply =
    | Task(name: string, body: string)                   // 200, job for a worker without ids
    | TaskWithId(id: string, name: string, body: string) // 200, job for a worker that echoes the id
    | AsyncTask(job: Job)                                // 200 with Async: true
    | Answer(body: string)                               // 200, result forwarded to the client
    | AnswerWithId(id: string, body: string)             // 200 with Id, result forwarded to the client
    | Unavailable                                        // 503, the worker went away
    | CollisionId                                        // 400, the id is already waiting
    | AsyncAccepted                                      // 200, asynchronous call taken
    | NotFound                                           // 404, no such queue
    | NoContent                                          // 204, "if present" and nobody is
    | Timeout                                            // 408
    | Ok                                                 // 200 without contents
    | ClientGone                                         // 499
    | WrongId                                            // 400 for a result
    | NoId                                               // 400 for a result
    | NoName                                             // 400 for a worker
    | ResultExpected                                     // 400 for a worker that owes a result
    | InvalidData                                        // 400 for a body that cannot be scanned

  /** The replies that close a call, synchronous or not. */
  predicate ClosesCall(r: Reply) {
    r.Answer? || r.AnswerWithId? || r.Unavailable? || r.CollisionId? || r.AsyncAccepted? || r.NotFound? || r.NoContent?
  }

  function Closed(out: seq<Reply>): nat {
    if out == [] then 0
    else Closed(out[..|out| - 1]) + (if ClosesCall(out[|out| - 1]) then 1 else 0)
  }

  lemma ClosedAppend(out: seq<Reply>, r: Reply)
    ensures Closed(out + [r]) == Closed(out) + (if ClosesCall(r) then 1 else 0)
  {
    assert (out + [r])[..|out|] == out;
  }

  /** The asynchronous jobs written to a send buffer. */
  function Tasks(out: seq<Reply>): multiset<Job> {
    if out == [] then multiset{}
    else
      Tasks(out[..|out| - 1])
      + (if out[|out| - 1].AsyncTask? then multiset{out[|out| - 1].job} else multiset{})
  }

  lemma TasksAppend(out: seq<Reply>, r: Reply)
    ensures Tasks(out + [r]) == Tasks(out) + (if r.AsyncTask? then multiset{r.job} else multiset{})
  {
    assert (out + [r])[..|out|] == out;
  }

  /** The replies by which a worker gets a job. */
  predicate IsJob(r: Reply) {
    r.Task? || r.TaskWithId? || r.AsyncTask?
  }

  /** Replies were appended, none of them a job or the acceptance of one. */
  predicate Grows(out: seq<Reply>, longer: seq<Reply>) {
    && out <= longer
    && (forall k :: |out| <= k < |longer| ==> !IsJob(longer[k]) && !longer[k].AsyncAccepted?)
  }

  /**
   The state of one connection. `calls` counts the calls it has made since it was accepted, and
   `spoilt` tells that its registration in worker mode broke off.
   */
  datatype Conn = Conn(
    closed: bool,
    link: int,
    nloop: nat,
    status: Status,
    started: bool,
    workerMode: bool,
    noid: bool,
    failOnDisconnect: bool,
    client: Option<Connect>,
    item: Option<nat>,
    subName: string,
    connectionId: string,
    ping: nat,
    pingTimeout: nat,
    name: string,
    id: string,
    jsonId: string,
    body: string,
    priority: int,
    requiredWorker: string,
    noResponse: bool,
    ifPresent: bool,
    out: seq<Reply>,
    calls: nat,
    spoilt: bool)

  /** The connection waits for the answer to its call; busy means that a worker has taken it from a queue. */
  predicate InCall(v: Conn) {
    v.status == ClientWaitResult || v.status == Busy
  }

  function NewConnection(loop: nat): Conn {
    Conn(false, 1, loop, Net, false, false, false, false, None, None, "", "", 0, 0,
         "", "", "", "", 0, "", false, false, [], 0, false)
  }

  /** The asynchronous jobs on all these send buffers together. */
  ghost function Carried(conns: map<Connect, Conn>): multiset<Job>
    decreases |conns|
  {
    if conns == map[] then multiset{}
    else
      var c :| c in conns;
      Tasks(conns[c].out) + Carried(conns - {c})
  }

  /** These connections among all. */
  ghost function Among(conns: map<Connect, Conn>, some: set<Connect>): map<Connect, Conn> {
    map c | c in conns && c in some :: conns[c]
  }

  class Connect {
    var closed: bool
    var link: int
    const nloop: nat
    var status: Status
    var started: bool
    var workerMode: bool
    var noid: bool
    var failOnDisconnect: bool
    var client: Option<Connect>
    var item: Option<nat>
    var subName: string
    var connectionId: string
    var ping: nat
    var pingTimeout: nat
    var name: string
    var id: string
    var jsonId: string
    var body: string
    var priority: int
    var requiredWorker: string
    var noResponse: bool
    var ifPresent: bool
    var out: seq<Reply>
    var calls: nat
    var spoilt: bool

    ghost function Value(): Conn
      reads this
    {
      Conn(closed, link, nloop, status, started, workerMode, noid, failOnDisconnect, client, item, subName,
           connectionId, ping, pingTimeout, name, id, jsonId, body, priority, requiredWorker, noResponse,
           ifPresent, out, calls, spoilt)
    }

    /** A connection that has just been accepted on a loop; the table holds its one link. */
    constructor (nloop: nat)
      ensures Value() == NewConnection(nloop)
    {
      this.nloop := nloop;
      closed, link, status, started, workerMode, noid, failOnDisconnect := false, 1, Net, false, false, false, false;
      client, item, subName, connectionId, ping, pingTimeout := None, None, "", "", 0, 0;
      name, id, jsonId, body, priority, requiredWorker, noResponse, ifPresent := "", "", "", "", 0, "", false, false;
      out, calls, spoilt := [], 0, false;
    }

    method ChangeLink(delta: int)
      modifies this`link
      ensures Value() == old(Value()).(link := old(Value()).link + delta) && Value().link == link
    {
      link := link + delta;
    }

    method Close()
      modifies this`closed
      ensures Value() == old(Value()).(closed := true)
    {
      closed := true;
    }

    method SetStatus(s: Status)
      modifies this`status
      ensures Value() == old(Value()).(status := s)
    {
      status := s;
    }

    method Append(r: Reply)
      modifies this`out
      ensures Value() == old(Value()).(out := old(Value()).out + [r])
    {
      out := out + [r];
    }

    method SetRequest(body: string, id: string, jsonId: string)
      modifies this`body, this`id, this`jsonId
      ensures Value() == old(Value()).(body := body, id := id, jsonId := jsonId)
    {
      this.body := body;
      this.id := id;
      this.jsonId := jsonId;
    }

    method SetOptions(priority: int, requiredWorker: string, ifPresent: bool)
      modifies this`priority, this`requiredWorker, this`ifPresent
      ensures Value() == old(Value()).(priority := priority, requiredWorker := requiredWorker, ifPresent := ifPresent)
    {
      this.priority := priority;
      this.requiredWorker := requiredWorker;
      this.ifPresent := ifPresent;
    }

    method SetProgress(started: bool, noResponse: bool)
      modifies this`started, this`noResponse
      ensures Value() == old(Value()).(started := started, noResponse := noResponse)
    {
      this.started := started;
      this.noResponse := noResponse;
    }

    method SetNames(name: string, connectionId: string)
      modifies this`name, this`connectionId
      ensures Value() == old(Value()).(name := name, connectionId := connectionId)
    {
      this.name := name;
      this.connectionId := connectionId;
    }

    method SetPing(ping: nat, pingTimeout: nat)
      modifies this`ping, this`pingTimeout
      ensures Value() == old(Value()).(ping := ping, pingTimeout := pingTimeout)
    {
      this.ping := ping;
      this.pingTimeout := pingTimeout;
    }

    method SetRole(workerMode: bool, noid: bool, failOnDisconnect: bool)
      modifies this`workerMode, this`noid, this`failOnDisconnect
      ensures Value() == old(Value()).(workerMode := workerMode, noid := noid, failOnDisconnect := failOnDisconnect)
    {
      this.workerMode := workerMode;
      this.noid := noid;
      this.failOnDisconnect := failOnDisconnect;
    }

    method SetSpoilt(spoilt: bool)
      modifies this`spoilt
      ensures Value() == old(Value()).(spoilt := spoilt)
    {
      this.spoilt := spoilt;
    }

    method SetId(id: string)
      modifies this`id
      ensures Value() == old(Value()).(id := id)
    {
      this.id := id;
    }

    method SetItem(item: Option<nat>)
      modifies this`item
      ensures Value() == old(Value()).(item := item)
    {
      this.item := item;
    }

    method SetSubName(subName: string)
      modifies this`subName
      ensures Value() == old(Value()).(subName := subName)
    {
      this.subName := subName;
    }

    method SetName(name: string)
      modifies this`name
      ensures Value() == old(Value()).(name := name)
    {
      this.name := name;
    }

    method SetConnectionId(connectionId: string)
      modifies this`connectionId
      ensures Value() == old(Value()).(connectionId := connectionId)
    {
      this.connectionId := connectionId;
    }

    method SetRequired(requiredWorker: string)
      modifies this`requiredWorker
      ensures Value() == old(Value()).(requiredWorker := requiredWorker)
    {
      this.requiredWorker := requiredWorker;
    }

    method SetBody(body: string)
      modifies this`body
      ensures Value() == old(Value()).(body := body)
    {
      this.body := body;
    }

    method CountCall()
      modifies this`calls
      ensures Value() == old(Value()).(calls := old(Value()).calls + 1)
    {
      calls := calls + 1;
    }

    method SetClient(c: Option<Connect>)
      modifies this`client
      ensures Value() == old(Value()).(client := c)
    {
      client := c;
    }
  }
}
