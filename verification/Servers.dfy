/**
 The server as an object: containers, and connections on the heap whose fields the handlers
 change in place. View() is its state as a value; every operation is shown to do to the view
 what the corresponding function does to a state.
 */
module Servers {
  import opened Connections
  import opened Deques
  import opened Names
  import opened BrokerState
  import opened Common
  import ClientRequests
  import WorkerRequests
  import Sessions
  import opened Invariants
  import opened Scans

  class Server {
    var threads: nat
    var table: set<Connect>
    var names: Names
    var workers: Deques<Connect>
    var clients: Deques<Msg>
    var lists: seq<seq<Connect>>
    var wait: map<string, Connect>
    var dead: seq<Connect>
    var stamp: nat
    var idIndex: nat
    var fault: bool
    ghost var accepted: multiset<Job>
    ghost var handed: multiset<Job>
    ghost var buried: multiset<Job>
    ghost var live: set<Connect>   // the connections that have not been deleted

    ghost function Conns(): (m: map<Connect, Conn>)
      reads this`live, live
      ensures m.Keys == live
    {
      map c | c in live :: c.Value()
    }

    ghost function View(): State
      reads this, live
    {
      State(threads, Conns(), table, names, workers, clients, lists, wait, dead, stamp, idIndex, accepted, handed,
          buried, fault)
    }

    constructor (threads: nat)
      ensures View() == Start(threads) && live == {}
    {
      this.threads := threads;
      table, names, workers, clients, lists, wait, dead := {}, NO_NAMES, [], [], [], map[], [];
      stamp, idIndex, fault := 0, 0, false;
      accepted, handed, buried, live := multiset{}, multiset{}, multiset{}, {};
    }

    lemma ValueOf(c: Connect)
      requires c in live
      ensures View().conns[c] == c.Value()
    {
    }

    /** One connection changed. */
    twostate lemma Updated(c: Connect)
      requires live == old(live) && c in live
      requires forall x :: x in live && x != c ==> unchanged(x)
      ensures Conns() == old(Conns())[c := c.Value()]
      ensures c in old(Conns()) && old(Conns())[c] == old(c.Value())
    {
      hide Connect.Value;
    }

    // Links and replies

    method AddLink(c: Connect)
      requires c in live
      modifies c`link
      ensures View() == Link(old(View()), c)
    {
      hide Connect.Value, Server.Conns;
      ValueOf(c);
      c.ChangeLink(1);
      Updated(c);
    }

    method RemoveLink(c: Connect)
      requires c in live
      modifies c`link
      ensures View() == Upd(old(View()), c, old(View()).conns[c].(link := old(View()).conns[c].link - 1))
      ensures c.link == old(View()).conns[c].link - 1
    {
      hide Connect.Value, Server.Conns;
      ValueOf(c);
      c.ChangeLink(-1);
      Updated(c);
    }

    /** unlink: the last link puts the connection on the dead list; one too many is an error. */
    method DropLink(c: Connect)
      requires c in live
      modifies this`dead, this`fault, c`link
      ensures View() == Unlink(old(View()), c)
    {
      hide Connect.Value, Server.Conns, Upd;
      RemoveLink(c);
      if c.link == 0 {
        dead := dead + [c];
      } else if c.link < 0 {
        fault := true;
      }
    }

    method Reply(c: Connect, r: Reply)
      requires c in live
      modifies this`fault, c
      ensures View() == Send(old(View()), c, r)
    {
      hide Connect.Value, Server.Conns;
      ValueOf(c);
      ClientFields(c);
      if c.closed {
        fault := true;
      } else {
        c.Append(r);
        Updated(c);
      }
    }

    method Become(c: Connect, status: Status)
      requires c in live
      modifies c
      ensures View() == SetStatus(old(View()), c, status)
    {
      hide Connect.Value, Server.Conns;
      ValueOf(c);
      c.SetStatus(status);
      Updated(c);
    }

    /** Every queue has one deque of each kind per loop, and their entries are live. */
    lemma Lines(q: nat)
      requires Wf(View()) && q < |lists|
      ensures |workers| == |clients| == |lists| && |workers[q]| == |clients[q]| == threads
    {
      hide Grounded;
    }

    lemma EntryIsLive(q: nat, l: nat, i: nat)
      requires Wf(View()) && q < |workers| && l < |workers[q]| && i < |workers[q][l]|
      ensures workers[q][l][i] in live
    {
      hide ClientsLive, ListsLive, WaitLive, ConnsLive;
    }

    lemma WorkerFields(w: Connect)
      requires w in live
      ensures var v := View().conns[w];
        v.connectionId == w.connectionId && v.closed == w.closed && v.status == w.status
    {
    }

    // Deques

    method PutWorkers(q: nat, l: nat, d: seq<Connect>)
      requires q < |workers| && l < |workers[q]|
      modifies this`workers
      ensures View() == SetWorkers(old(View()), q, l, d) && workers == SetAt(old(workers), q, l, d)
    {
      hide Server.Conns, SetAt;
      workers := SetAt(workers, q, l, d);
    }

    method EraseWorkerAt(q: nat, l: nat, i: nat)
      requires Wf(View()) && q < |workers| && l < |workers[q]| && i < |workers[q][l]|
      modifies this`workers, this`dead, this`fault, live`link
      ensures View() == EraseWorker(old(View()), q, l, i)
      ensures workers == SetAt(old(workers), q, l, RemoveAt(old(workers[q][l]), i))
    {
      EntryIsLive(q, l, i);
      hide Server.Conns, Unlink, RemoveAt, SetWorkers, Wf, Grounded, ConnsLive;
      var w := workers[q][l][i];
      PutWorkers(q, l, RemoveAt(workers[q][l], i));
      DropLink(w);
    }

    /** Position i of this deque holds a worker that waits for a job. */
    ghost predicate HasEntry(q: nat, l: nat, i: nat)
      reads this, live
    {
      && q < |workers| && l < |workers[q]| && i < |workers[q][l]|
      && workers[q][l][i] in live && workers[q][l][i].status == WorkerWaitJob
    }

    /** The scan of client_request: over the loops, the local one first, and the deque of each. */
    method FindWorker(q: nat, local: nat, required: string) returns (found: bool, l: nat, i: nat)
      requires Wf(View()) && q < |workers| == |lists| && local < threads
      modifies this`workers, this`dead, this`fault, live`link
      ensures match ClientRequests.FindWorker(old(View()), q, local, required, -1)
        case NoWorker(t) => !found && View() == t
        case FoundWorker(t, l', i') => found && l == l' && i == i' && View() == t
      ensures found ==> HasEntry(q, l, i)
    {
      hide Server.Conns, Wf, Grounded, ConnsLive, Hunting, ClientRequests.FindWorker, ClientRequests.ScanWorkers;
      hide Server.HasEntry, SameFrame;
      ghost var s := View();
      HuntBegins(s, q, local, required);
      found, l, i := false, local, 0;
      var index: int := -1;
      while index < threads
        invariant -1 <= index <= threads && Hunting(s, View(), q, local, required, index)
        decreases threads - index
      {
        HuntGoesOn(s, View(), q, local, required, index);
        if index == local {
          index := index + 1;
          continue;
        }
        l := LoopAt(index, local);
        found, i := ScanDeque(q, l, required);
        if found { return; }
        index := index + 1;
      }
      HuntEnds(s, View(), q, local, required, index);
    }

    method ScanDeque(q: nat, l: nat, required: string) returns (found: bool, i: nat)
      requires Wf(View()) && q < |workers| == |lists| && l < threads
      modifies this`workers, this`dead, this`fault, live`link
      ensures match ClientRequests.ScanWorkers(old(View()), q, l, required, 0)
        case NoWorker(t) => !found && View() == t
        case FoundWorker(t, l', i') => found && l == l' && i == i' && View() == t
      ensures found ==> HasEntry(q, l, i)
    {
      hide Server.Conns, EraseWorker, Wf, Grounded, ConnsLive;
      ghost var s := View();
      Lines(q);
      i := 0;
      while i < |workers[q][l]|
        invariant SameFrame(s, View()) && q < |workers| && l < |workers[q]| && i <= |workers[q][l]|
        invariant ClientRequests.ScanWorkers(s, q, l, required, 0)
               == ClientRequests.ScanWorkers(View(), q, l, required, i)
        decreases |workers[q][l]| - i
      {
        var w := workers[q][l][i];
        EntryIsLive(q, l, i);
        WorkerFields(w);
        if required != "" && required != w.connectionId {
          i := i + 1;
          continue;
        }
        if !w.closed && w.status == WorkerWaitJob { return true, i; }
        EraseWorkerWf(View(), q, l, i);
        EraseWorkerAt(q, l, i);
        Lines(q);
      }
      found := false;
    }

    // Calls

    /** The id of a request: its own, the one in its body, or a fresh one. */
    method ResolveRequestId(c: Connect, rnd: Entropy)
      requires c in live
      modifies this`idIndex, c`id
      ensures View() == ResolveId(old(View()), c, rnd)
    {
      hide GeneratedId, Server.Conns;
      IdFields(c);
      var id := c.id;
      if id == "" {
        id := c.jsonId;
        if id == "" {
          idIndex := idIndex + 1;
          id := GeneratedId(idIndex, rnd);
        }
      }
      assert id == ResolvedId(old(View()), c, rnd);
      hide ResolvedId;
      SetId(c, id);
    }

    method SetId(c: Connect, id: string)
      requires c in live
      modifies c`id
      ensures View() == Upd(old(View()), c, old(View()).conns[c].(id := id))
    {
      hide Connect.Value, Server.Conns;
      ValueOf(c);
      c.SetId(id);
      Updated(c);
    }

    /** A worker gets a job: what it points at from now on, its new status, and the reply. */
    method Hand(w: Connect, client: Option<Connect>, status: Status, r: Reply)
      requires w in live
      modifies w
      ensures View() == Upd(old(View()), w, Handed(old(View()).conns[w], client, status, r))
    {
      hide Connect.Value, Server.Conns;
      ValueOf(w);
      w.SetClient(client);
      w.SetStatus(status);
      w.Append(r);
      Updated(w);
    }

    static function Handed(v: Conn, client: Option<Connect>, status: Status, r: Reply): Conn {
      v.(client := client, status := status, out := v.out + [r])
    }

    /** A client starts to wait, with so many new links to it. */
    method Await(c: Connect, links: nat)
      requires c in live
      modifies c
      ensures View() == Upd(old(View()), c, Called(old(View()).conns[c], links))
    {
      hide Connect.Value, Server.Conns;
      ValueOf(c);
      c.ChangeLink(links);
      c.SetStatus(ClientWaitResult);
      Updated(c);
    }

    method Tell(c: Connect, r: Reply)
      requires c in live
      modifies c
      ensures View() == Upd(old(View()), c, Told(old(View()).conns[c], r))
    {
      hide Connect.Value, Server.Conns;
      ValueOf(c);
      c.Append(r);
      Updated(c);
    }

    lemma JobFields(w: Connect, c: Connect)
      requires w in live && c in live
      ensures View().conns[w].workerMode == w.workerMode && View().conns[w].client == w.client
      ensures View().conns[w].failOnDisconnect == w.failOnDisconnect
      ensures View().conns[c].id == c.id && View().conns[c].body == c.body
    {
    }

    lemma IdFields(c: Connect)
      requires c in live
      ensures View().conns[c].id == c.id && View().conns[c].jsonId == c.jsonId
    {
    }

    lemma RequestFields(c: Connect)
      requires c in live
      ensures var v := View().conns[c];
        && v.id == c.id && v.jsonId == c.jsonId && v.body == c.body && v.name == c.name && v.nloop == c.nloop
        && v.requiredWorker == c.requiredWorker && v.noResponse == c.noResponse && v.ifPresent == c.ifPresent
        && v.priority == c.priority
    {
    }

    lemma ModeFields(w: Connect)
      requires w in live
      ensures var v := View().conns[w];
        && v.workerMode == w.workerMode && v.noid == w.noid && v.failOnDisconnect == w.failOnDisconnect
        && v.client == w.client && v.item == w.item && v.subName == w.subName && v.nloop == w.nloop
    {
    }

    method AddWaiting(id: string, c: Connect)
      modifies this`wait
      ensures View() == AddWait(old(View()), id, c)
    {
      hide Server.Conns;
      wait := wait[id := c];
    }

    /** A job that is accepted and handed over at the same time. */
    method Record(job: Job)
      modifies this`stamp, this`accepted, this`handed
      ensures View() == ClientRequests.Recorded(old(View()), job)
    {
      hide Server.Conns;
      stamp, accepted, handed := stamp + 1, accepted + multiset{job}, handed + multiset{job};
    }

    /** An asynchronous call goes to the worker at once, and the client need not wait. */
    method DispatchAsync(w: Connect, c: Connect, name: string)
      requires w in live && c in live && w != c
      modifies this`stamp, this`accepted, this`handed, w, c
      ensures View() == ClientRequests.DispatchAsync(old(View()), w, c, name)
    {
      JobFields(w, c);
      var job := Job(stamp, name, c.body);
      var status := if w.workerMode then WorkerModeAsync else Net;
      assert status == StatusAfterAsync(View().conns[w]);
      hide Server.Conns, StatusAfterAsync, ClientRequests.Recorded;
      Hand(w, w.client, status, AsyncTask(job));
      Tell(c, AsyncAccepted);
      Record(job);
    }

    /** A worker without ids points at its client until it sends the result. */
    method DispatchLinked(w: Connect, c: Connect, name: string)
      requires w in live && c in live && w != c
      modifies w, c
      ensures View() == ClientRequests.DispatchLinked(old(View()), w, c, name)
    {
      JobFields(w, c);
      hide Server.Conns;
      Hand(w, Some(c), WorkerWaitResult, Task(name, c.body));
      Await(c, 1);
    }

    /** The client waits under its id; a worker that must not vanish silently points at it as well. */
    method DispatchWithId(w: Connect, c: Connect, name: string)
      requires w in live && c in live && w != c
      modifies this`wait, w, c
      ensures View() == ClientRequests.DispatchWithId(old(View()), w, c, name)
    {
      hide Server.Conns, Handed, ServedWithId, LinksGiven, AddWait;
      HandedWithId(w, c, name);
      var client := if w.failOnDisconnect then Some(c) else w.client;
      var links := if w.failOnDisconnect then 2 else 1;
      var id, task := c.id, TaskWithId(c.id, name, c.body);
      Hand(w, client, Net, task);
      Await(c, links);
      AddWaiting(id, c);
    }

    lemma HandedWithId(w: Connect, c: Connect, name: string)
      requires w in live && c in live
      ensures var v, x := View().conns[w], View().conns[c];
        && Handed(v, if w.failOnDisconnect then Some(c) else w.client, Net, TaskWithId(c.id, name, c.body))
        == ServedWithId(v, c, TaskWithId(x.id, name, x.body))
        && (if w.failOnDisconnect then 2 else 1) == LinksGiven(v) && x.id == c.id
    {
      JobFields(w, c);
      hide Server.Conns;
    }

    /** The id is taken: the worker goes back to the front of the deque of its own loop. */
    method Rollback(q: nat, w: Connect, c: Connect)
      requires Wf(View()) && q < |workers| == |lists| && w in live && c in live
      modifies this`workers, this`fault, w, c
      ensures View() == ClientRequests.Rollback(old(View()), q, w, c)
    {
      ModeFields(w);
      ConnIsLive(View(), w);
      Lines(q);
      hide Server.Conns, Link, Send, InsertAt, SetWorkers, Wf, Grounded, ConnsLive;
      AddLink(w);
      PutWorkers(q, w.nloop, InsertAt(workers[q][w.nloop], 0, w));
      Reply(c, CollisionId);
    }

    method PutClients(q: nat, l: nat, d: seq<Msg>)
      requires q < |clients| && l < |clients[q]|
      modifies this`clients
      ensures View() == SetClients(old(View()), q, l, d) && clients == SetAt(old(clients), q, l, d)
    {
      hide Server.Conns, SetAt;
      clients := SetAt(clients, q, l, d);
    }

    method TakeStamp()
      modifies this`stamp
      ensures View() == ClientRequests.NextStamp(old(View()))
    {
      hide Server.Conns;
      stamp := stamp + 1;
    }

    ghost method Note(job: Job)
      modifies this`accepted
      ensures View() == ClientRequests.Noted(old(View()), job)
    {
      hide Server.Conns;
      accepted := accepted + multiset{job};
    }

    /** The message goes behind the last one of at least its priority, looked for from the back. */
    method InsertMessage(q: nat, l: nat, m: Msg)
      requires q < |clients| && l < |clients[q]|
      modifies this`clients, this`stamp
      ensures View() == ClientRequests.QueueMessage(old(View()), q, l, m)
    {
      var d := clients[q][l];
      var i := |d|;
      while i > 0 && m.priority > d[i - 1].priority
        invariant 0 <= i <= |d|
        invariant ClientRequests.Slot(d, m.priority, |d|) == ClientRequests.Slot(d, m.priority, i)
      {
        i := i - 1;
      }
      hide Server.Conns, SetClients, InsertAt, ClientRequests.NextStamp;
      PutClients(q, l, InsertAt(d, i, m));
      TakeStamp();
    }

    /** The client of an asynchronous call is done; its message takes over body and required worker. */
    method ReleaseCaller(c: Connect)
      requires c in live
      modifies c
      ensures var v := old(View()).conns[c];
        View() == Upd(old(View()), c, Told(v, AsyncAccepted).(requiredWorker := "", body := ""))
    {
      hide Connect.Value, Server.Conns;
      ValueOf(c);
      c.SetRequired("");
      c.SetBody("");
      c.Append(AsyncAccepted);
      Updated(c);
    }

    /** The message has taken over the required worker; the client keeps the name it called. */
    method Rename(c: Connect, name: string)
      requires c in live
      modifies c
      ensures View() == Upd(old(View()), c, old(View()).conns[c].(requiredWorker := "", name := name))
    {
      hide Connect.Value, Server.Conns;
      ValueOf(c);
      c.SetRequired("");
      c.SetName(name);
      Updated(c);
    }

    /** The client of a synchronous call waits under the name it called. */
    method HoldCaller(c: Connect, name: string)
      requires c in live
      modifies c
      ensures View() == Upd(old(View()), c, Called(old(View()).conns[c], 1).(requiredWorker := "", name := name))
    {
      hide Server.Conns, Called;
      ghost var s := View();
      Await(c, 1);
      Rename(c, name);
      UpdTwice(s, c, Called(s.conns[c], 1), Called(s.conns[c], 1).(requiredWorker := "", name := name));
    }

    /** No worker is ready: the call waits in the deque of its client's loop. */
    method Enqueue(q: nat, c: Connect, name: string)
      requires Wf(View()) && q < |lists| && c in live
      modifies this`clients, this`stamp, this`accepted, this`fault, c
      ensures View() == ClientRequests.Enqueue(old(View()), q, c, name)
    {
      Lines(q);
      ConnIsLive(View(), c);
      RequestFields(c);
      hide Server.Conns, Send, Told, Called, ClientRequests.QueueMessage, ClientRequests.Noted, Upd;
      if c.ifPresent && lists[q] == [] {
        Reply(c, NoContent);
      } else if c.noResponse {
        var m := Msg(stamp, c.priority, c.requiredWorker, None, name, c.body);
        ReleaseCaller(c);
        InsertMessage(q, c.nloop, m);
        Note(JobOf(m));
      } else {
        var m := Msg(stamp, c.priority, c.requiredWorker, Some(c), "", "");
        HoldCaller(c, name);
        InsertMessage(q, c.nloop, m);
      }
    }

    /** A ready worker was found: the call goes to it, unless its id is already waiting. */
    method Dispatch(q: nat, l: nat, i: nat, c: Connect, name: string, rnd: Entropy)
      requires Wf(View()) && q < |workers| == |lists| && l < |workers[q]| && i < |workers[q][l]| && c in live
      requires workers[q][l][i] != c
      modifies this, live
      ensures View() == ClientRequests.Dispatch(old(View()), q, l, i, c, name, rnd)
    {
      var w := workers[q][l][i];
      EntryIsLive(q, l, i);
      EraseWorkerWf(View(), q, l, i);
      hide Server.Conns, EraseWorker, Wf, Grounded, ConnsLive;
      EraseWorkerAt(q, l, i);
      ModeFields(w);
      RequestFields(c);
      if c.noResponse {
        DispatchAsync(w, c, name);
      } else if w.noid {
        DispatchLinked(w, c, name);
      } else {
        ResolveIdWf(View(), c, rnd);
        ResolveRequestId(c, rnd);
        IdFields(c);
        Lines(q);
        if c.id in wait { Rollback(q, w, c); } else { DispatchWithId(w, c, name); }
      }
    }

    // Queues

    method FindQueue(name: string) returns (q: Option<nat>)
      requires Shape(View())
      ensures q == FoundQueue(View(), name) && (q.Some? ==> q.value < |lists|)
    {
      hide Lookup, Shape;
      var n := Lookup(names, name);
      q := if n == 0 then None else Some(n - 1);
    }

    method AddQueue(name: string)
      modifies this`workers, this`clients, this`lists, this`names
      ensures View() == CreateQueue(old(View()), name)
    {
      hide Server.Conns, Register, NewLine;
      names := Register(names, name, |lists| + 1);
      workers := workers + [NewLine(threads)];
      clients := clients + [NewLine(threads)];
      lists := lists + [[]];
    }

    /** get_queue with `create`. */
    method UseQueue(name: string) returns (q: nat)
      requires Wf(View())
      modifies this`workers, this`clients, this`lists, this`names
      ensures View() == OpenQueue(old(View()), name) && q == OpenedQueue(old(View()), name)
    {
      hide Grounded, Server.Conns, CreateQueue;
      var found := FindQueue(name);
      if found.Some? { return found.value; }
      q := |lists|;
      AddQueue(name);
    }

    /** A call counts as made by its client. */
    method CountCall(c: Connect)
      requires Wf(View()) && c in live
      modifies c`calls
      ensures View() == ClientRequests.CallMade(old(View()), c)
    {
      hide Connect.Value;
      ValueOf(c);
      ghost var s, t := View(), ClientRequests.CallMade(View(), c);
      assert t == Upd(s, c, t.conns[c]);
      c.CountCall();
      assert c.Value() == t.conns[c];
      hide ClientRequests.CallMade;
      Updated(c);
      hide Server.Conns;
    }

    lemma SeekIs(q: nat, c: Connect, name: string, rnd: Entropy)
      requires Wf(View()) && c in live && q < |lists|
      ensures c.nloop < threads && |workers| == |lists|
      ensures ClientRequests.Seek(View(), q, c, name, rnd)
           == ClientRequests.SeekFor(View(), q, c, name, c.nloop, c.requiredWorker, rnd)
    {
      ConnIsLive(View(), c);
      Lines(q);
      assert View().conns[c].nloop == c.nloop && View().conns[c].requiredWorker == c.requiredWorker;
    }

    /** The call goes to a ready worker of queue q, or waits there. */
    method Seek(q: nat, c: Connect, name: string, rnd: Entropy)
      requires Wf(View()) && q < |lists| && c in live && c.status == Net
      modifies this, live
      ensures View() == ClientRequests.Seek(old(View()), q, c, name, rnd)
    {
      hide Server.Conns, Wf, Grounded, ConnsLive;
      hide ClientRequests.FindWorker, ClientRequests.Enqueue, ClientRequests.Dispatch, ClientRequests.Seek;
      SeekIs(q, c, name, rnd);
      var found, l, i := FindWorker(q, c.nloop, c.requiredWorker);
      Lines(q);
      if found { Dispatch(q, l, i, c, name, rnd); } else { Enqueue(q, c, name); }
    }

    method ClientRequest(c: Connect, name: string, rnd: Entropy)
      requires Wf(View()) && c in live && c.status == Net
      modifies this, live
      ensures View() == ClientRequests.ClientRequest(old(View()), c, name, rnd)
    {
      hide Server.Conns, Send, Wf, Shape, FoundQueue, ClientRequests.CallMade, ClientRequests.Seek, Grounded, ConnsLive;
      CountCall(c);
      WfShape(View());
      var q := FindQueue(name);
      match q
      case None => Reply(c, NotFound);
      case Some(n) => Seek(n, c, name, rnd);
    }

    // Workers

    lemma MessageIsLive(q: nat, l: nat, i: nat)
      requires Wf(View()) && q < |clients| && l < |clients[q]| && i < |clients[q][l]|
      ensures clients[q][l][i].conn.Some? ==> clients[q][l][i].conn.value in live
    {
      hide WorkersLive, ListsLive, WaitLive, ConnsLive;
      assert MsgLive(clients[q][l][i], View().conns.Keys);
    }

    method EraseMessageAt(q: nat, l: nat, i: nat)
      requires Wf(View()) && q < |clients| && l < |clients[q]| && i < |clients[q][l]|
      modifies this`clients, this`dead, this`fault, live`link
      ensures View() == EraseMessage(old(View()), q, l, i)
      ensures clients == SetAt(old(clients), q, l, RemoveAt(old(clients[q][l]), i))
    {
      MessageIsLive(q, l, i);
      hide Server.Conns, Unlink, RemoveAt, SetClients, Wf, Grounded, ConnsLive;
      var m := clients[q][l][i];
      PutClients(q, l, RemoveAt(clients[q][l], i));
      if m.conn.Some? {
        DropLink(m.conn.value);
      }
    }

    method Settle(c: Connect, status: Status, r: Reply)
      requires c in live
      modifies c`status, c`out
      ensures View() == Upd(old(View()), c, Served(old(View()).conns[c], status, r))
    {
      hide Connect.Value, Server.Conns;
      ValueOf(c);
      c.SetStatus(status);
      c.Append(r);
      Updated(c);
    }

    /** A waiting client whose id is taken is turned away. */
    method RejectQueued(q: nat, l: nat, i: nat, c: Connect)
      requires Wf(View()) && q < |clients| && l < |clients[q]| && i < |clients[q][l]| && c in live
      modifies this`clients, this`dead, this`fault, live`link, c
      ensures View() == WorkerRequests.RejectQueued(old(View()), q, l, i, c)
      ensures clients == SetAt(old(clients), q, l, RemoveAt(old(clients[q][l]), i))
    {
      hide Server.Conns, EraseMessage, Served, Wf, RemoveAt, Grounded, ConnsLive;
      EraseMessageAt(q, l, i);
      Settle(c, Net, CollisionId);
    }

    lemma ClientFields(c: Connect)
      requires c in live
      ensures View().conns[c].closed == c.closed && View().conns[c].status == c.status
    {
    }

    lemma NoidField(w: Connect)
      requires w in live
      ensures View().conns[w].noid == w.noid && View().conns[w].connectionId == w.connectionId
    {
    }

    /** What a scan of messages needs to know of the view. */
    lemma ScanFrame()
      requires Wf(View())
      ensures View().clients == clients && View().threads == threads && View().conns.Keys == live
      ensures |clients| == |lists| == |View().lists| && (forall q :: 0 <= q < |clients| ==> |clients[q]| == threads)
    {
      hide Grounded;
    }

    /** Position i of this deque holds a message of somebody else. */
    ghost predicate HasMessage(q: nat, l: nat, i: nat, w: Connect)
      reads this
    {
      q < |clients| && l < |clients[q]| && i < |clients[q][l]| && clients[q][l][i].conn != Some(w)
    }

    /** The scan of add_worker over the loops, the worker's own one first. */
    method FindMessage(q: nat, local: nat, w: Connect, rnd: Entropy) returns (found: bool, l: nat, i: nat)
      requires Wf(View()) && q < |clients| == |lists| && local < threads && w in live && w.status != ClientWaitResult
      modifies this`clients, this`dead, this`fault, this`idIndex, live
      ensures Outcome(found, View(), l, i) == WorkerRequests.FindMessage(old(View()), q, local, w, -1, rnd)
      ensures found ==> HasMessage(q, l, i, w)
    {
      hide Server.Conns, Wf, Finding, WorkerRequests.FindMessage, Server.HasMessage, SameFrame, Grounded, ConnsLive;
      hide ConnLive;
      ghost var s := View();
      FindBegins(s, q, local, w, rnd);
      found, l, i := false, local, 0;
      var index: int := -1;
      while index < threads
        invariant -1 <= index <= threads && !found && w.status != ClientWaitResult
        invariant Finding(s, View(), q, local, w, index, rnd)
        decreases threads - index
      {
        found, l, i := FindOn(s, q, local, w, index, rnd);
        if found { return; }
        index := index + 1;
      }
      FindEnds(s, View(), q, local, w, index, rnd);
    }

    method FindOn(ghost s: State, q: nat, local: nat, w: Connect, index: int, rnd: Entropy)
      returns (found: bool, l: nat, i: nat)
      requires w in live && index < threads && Finding(s, View(), q, local, w, index, rnd)
      requires w.status != ClientWaitResult
      modifies this`clients, this`dead, this`fault, this`idIndex, live
      ensures if found
        then HasMessage(q, l, i, w)
          && WorkerRequests.FindMessage(s, q, local, w, -1, rnd) == WorkerRequests.FoundMessage(View(), l, i)
        else Finding(s, View(), q, local, w, index + 1, rnd) && w.status != ClientWaitResult
    {
      FindGoesOn(s, View(), q, local, w, index, rnd);
      hide Server.Conns, Wf, Finding, WorkerRequests.FindMessage, WorkerRequests.ScanMessages, Server.HasMessage;
      hide Grounded, ConnsLive;
      found, l, i := false, 0, 0;
      if index != local {
        l := LoopAt(index, local);
        found, i := ScanMessages(q, l, w, rnd);
      }
    }

    /** The scan of add_worker over one deque. */
    method ScanMessages(q: nat, l: nat, w: Connect, rnd: Entropy) returns (found: bool, i: nat)
      requires Wf(View()) && q < |lists| && l < threads && w in live && w.status != ClientWaitResult
      modifies this`clients, this`dead, this`fault, this`idIndex, live
      ensures Outcome(found, View(), l, i) == WorkerRequests.ScanMessages(old(View()), q, l, w, 0, rnd)
      ensures if found then HasMessage(q, l, i, w) else w.status != ClientWaitResult
    {
      ghost var s := View();
      WorkerFields(w);
      ScanFrame();
      hide Server.Conns, Wf, Scanning, WorkerRequests.ScanMessages, Grounded, ConnsLive;
      ScanBegins(s, q, l, w, rnd);
      i := 0;
      while i < |clients[q][l]|
        invariant q < |clients| && l < |clients[q]| && View().clients == clients && i <= |clients[q][l]|
        invariant Scanning(s, View(), q, l, w, i, rnd)
        decreases |clients[q][l]| - i
      {
        found, i := ScanOn(s, q, l, w, i, rnd);
        if found { return; }
      }
      ScanEnds(s, View(), q, l, w, i, rnd);
      found := false;
    }

    method ScanOn(ghost s: State, q: nat, l: nat, w: Connect, i: nat, rnd: Entropy) returns (found: bool, next: nat)
      requires w in live && q < |clients| && l < |clients[q]| && i < |clients[q][l]|
      requires Scanning(s, View(), q, l, w, i, rnd)
      modifies this`clients, this`dead, this`fault, this`idIndex, live
      ensures q < |clients| && l < |clients[q]| && next <= |clients[q][l]|
      ensures !found ==> Scanning(s, View(), q, l, w, next, rnd) && |clients[q][l]| - next < old(|clients[q][l]|) - i
      ensures found ==> Hit(s, View(), q, l, w, next, rnd)
    {
      ScanGoesOn(s, View(), q, l, w, i, rnd);
      hide Server.Conns, Wf, Scanning, Try, Hit, WorkerRequests.ScanMessages, Grounded, ConnsLive;
      var verdict := TryMessage(q, l, w, i, rnd);
      found, next := verdict == Found, if verdict == Pass then i + 1 else i;
    }

    /** One message: not for this worker, taken out of the deque, or found. */
    method TryMessage(q: nat, l: nat, w: Connect, i: nat, rnd: Entropy) returns (verdict: Verdict)
      requires Wf(View()) && q < |clients| && l < |clients[q]| && i < |clients[q][l]| && w in live
      modifies this`clients, this`dead, this`fault, this`idIndex, live
      ensures Tried(View(), verdict) == Try(old(View()), q, l, w, i, rnd)
    {
      var m := clients[q][l][i];
      MessageIsLive(q, l, i);
      NoidField(w);
      hide Server.Conns, Wf, EraseMessage, WorkerRequests.RejectQueued, ResolveId, ResolvedId, Grounded, ConnsLive;
      if m.required != "" && m.required != w.connectionId { return Pass; }
      if m.conn.None? { return Found; }
      var c := m.conn.value;
      ClientFields(c);
      if c.closed || c.status != ClientWaitResult {
        EraseMessageAt(q, l, i);
        return Drop;
      }
      if w.noid { return Found; }
      verdict := TryId(q, l, i, rnd, c);
    }

    /** The client of this message waits, and the worker needs an id for its call. */
    method TryId(q: nat, l: nat, i: nat, rnd: Entropy, c: Connect) returns (verdict: Verdict)
      requires Wf(View()) && q < |clients| && l < |clients[q]| && i < |clients[q][l]| && c in live
      modifies this`clients, this`dead, this`fault, this`idIndex, live
      ensures Tried(View(), verdict) == TryResolved(old(View()), q, l, i, c, rnd)
    {
      ghost var t := View();
      hide Server.Conns, Wf, WorkerRequests.RejectQueued, ResolveId, ResolvedId, Grounded, ConnsLive;
      ResolveIdWf(t, c, rnd);
      ResolveRequestId(c, rnd);
      IdFields(c);
      ResolvedIs(t, c, rnd);
      if c.id !in wait { return Found; }
      RejectQueued(q, l, i, c);
      verdict := Drop;
    }

    /** The job is in the worker's send buffer. */
    ghost method Deliver(job: Job)
      modifies this`handed
      ensures View() == WorkerRequests.HandedOver(old(View()), job)
    {
      hide Server.Conns;
      handed := handed + multiset{job};
    }

    /** The client of a message that is taken: busy until its answer comes, with so many new links to it. */
    method Pick(c: Connect, links: nat)
      requires c in live
      modifies c`link, c`status
      ensures View() == Upd(old(View()), c, WorkerRequests.Picked(old(View()).conns[c], links))
    {
      hide Connect.Value, Server.Conns;
      ValueOf(c);
      c.ChangeLink(links);
      c.SetStatus(Busy);
      Updated(c);
    }

    method TakeAsync(w: Connect, m: Msg)
      requires w in live
      modifies this`handed, w
      ensures View() == WorkerRequests.TakeAsync(old(View()), w, m)
    {
      hide Server.Conns, Served, WorkerRequests.HandedOver;
      JobFields(w, w);
      var status := if w.workerMode then WorkerModeAsync else Net;
      Settle(w, status, AsyncTask(JobOf(m)));
      Deliver(JobOf(m));
    }

    /** A waiting client's call goes to w, which points at the client if it must not vanish silently. */
    method TakeSync(w: Connect, c: Connect)
      requires w in live && c in live && w != c
      modifies this`wait, w, c
      ensures View() == WorkerRequests.TakeSync(old(View()), w, c)
    {
      hide Server.Conns;
      ModeFields(w);
      if w.noid { TakeLinked(w, c); } else { TakeWithId(w, c); }
    }

    method TakeLinked(w: Connect, c: Connect)
      requires w in live && c in live && w != c && View().conns[w].noid
      modifies w, c
      ensures View() == WorkerRequests.TakeSync(old(View()), w, c)
    {
      hide Server.Conns;
      ModeFields(w);
      RequestFields(c);
      var client := if w.failOnDisconnect then Some(c) else w.client;
      var links := if w.failOnDisconnect then 1 else 0;
      var task := Task(c.name, c.body);
      assert Handed(View().conns[w], client, WorkerWaitResult, task)
          == WorkerRequests.ServedNoid(View().conns[w], c, task);
      hide Handed, WorkerRequests.ServedNoid, WorkerRequests.Picked;
      Hand(w, client, WorkerWaitResult, task);
      Pick(c, links);
    }

    method TakeWithId(w: Connect, c: Connect)
      requires w in live && c in live && w != c && !View().conns[w].noid
      modifies this`wait, w, c
      ensures View() == WorkerRequests.TakeSync(old(View()), w, c)
    {
      hide Server.Conns;
      ModeFields(w);
      RequestFields(c);
      var client := if w.failOnDisconnect then Some(c) else w.client;
      var links := if w.failOnDisconnect then 2 else 1;
      var task := TaskWithId(c.id, c.name, c.body);
      assert Handed(View().conns[w], client, Net, task) == ServedWithId(View().conns[w], c, task);
      assert links == LinksGiven(View().conns[w]);
      hide Handed, ServedWithId, LinksGiven, AddWait, WorkerRequests.Picked;
      Hand(w, client, Net, task);
      Pick(c, links);
      AddWaiting(c.id, c);
    }

    /** The worker takes the message found at position i of loop l. */
    method Take(q: nat, l: nat, i: nat, w: Connect)
      requires Wf(View()) && HasMessage(q, l, i, w) && w in live
      modifies this`clients, this`dead, this`fault, this`wait, this`handed, live
      ensures View() == WorkerRequests.Take(old(View()), q, l, i, w)
    {
      hide Server.Conns, Wf, Grounded, ConnsLive, EraseMessage, WorkerRequests.TakeAsync, WorkerRequests.TakeSync;
      MessageIsLive(q, l, i);
      EraseMessageWf(View(), q, l, i);
      var m := clients[q][l][i];
      EraseMessageAt(q, l, i);
      if m.conn.None? { TakeAsync(w, m); } else { TakeSync(w, m.conn.value); }
    }

    /** Drops closed workers and earlier entries of this worker from its own loop's deque. */
    method Sweep(q: nat, l: nat, w: Connect)
      requires Wf(View()) && q < |workers| && l < threads
      modifies this`workers, this`dead, this`fault, live`link
      ensures View() == WorkerRequests.Sweep(old(View()), q, l, w, 0)
    {
      hide Server.Conns, Wf, Grounded, ConnsLive, Sweeping, WorkerRequests.Sweep, EraseWorker, SameFrame;
      ghost var s := View();
      SweepBegins(s, q, l, w);
      var i: nat := 0;
      while i < |workers[q][l]|
        invariant q < |workers| && l < |workers[q]| && i <= |workers[q][l]|
        invariant Sweeping(s, View(), q, l, w, i)
        decreases |workers[q][l]| - i
      {
        i := SweepOn(s, q, l, w, i);
      }
      SweepEnds(s, View(), q, l, w, i);
    }

    method SweepOn(ghost s: State, q: nat, l: nat, w: Connect, i: nat) returns (next: nat)
      requires q < |workers| && l < |workers[q]| && i < |workers[q][l]| && Sweeping(s, View(), q, l, w, i)
      modifies this`workers, this`dead, this`fault, live`link
      ensures q < |workers| && l < |workers[q]| && next <= |workers[q][l]| && Sweeping(s, View(), q, l, w, next)
      ensures |workers[q][l]| - next < old(|workers[q][l]|) - i
    {
      hide Server.Conns, Wf, Grounded, ConnsLive, Sweeping, WorkerRequests.Sweep, EraseWorker, SameFrame;
      SweepGoesOn(s, View(), q, l, w, i);
      var x := workers[q][l][i];
      WorkerFields(x);
      next := i;
      if x.closed || x == w { EraseWorkerAt(q, l, i); } else { next := i + 1; }
    }

    /** No job: the worker waits at the end of its own loop's deque. */
    method Park(q: nat, w: Connect)
      requires Wf(View()) && q < |workers| && w in live
      modifies this`workers, this`dead, this`fault, live
      ensures View() == WorkerRequests.Park(old(View()), q, w)
    {
      hide Server.Conns, Wf, Grounded, ConnsLive, WorkerRequests.Sweep, SetWorkers, Link, SetStatus, InsertAt;
      var l := w.nloop;
      ModeFields(w);
      ParkFacts(View(), q, w);
      Sweep(q, l, w);
      PutWorkers(q, l, InsertAt(workers[q][l], |workers[q][l]|, w));
      AddLink(w);
      Become(w, WorkerWaitJob);
    }

    // Worker lists

    method SetItem(c: Connect, item: Option<nat>)
      requires c in live
      modifies c`item
      ensures View() == Upd(old(View()), c, old(View()).conns[c].(item := item))
    {
      hide Connect.Value, Server.Conns;
      ValueOf(c);
      c.SetItem(item);
      Updated(c);
    }

    method PutList(q: nat, d: seq<Connect>)
      requires q < |lists|
      modifies this`lists
      ensures View() == old(View()).(lists := old(View()).lists[q := d])
    {
      hide Server.Conns;
      lists := lists[q := d];
    }

    method PushItem(c: Connect, q: nat)
      requires c in live && q < |lists|
      modifies this`lists, c
      ensures View() == BrokerState.PushItem(old(View()), c, q)
    {
      hide Server.Conns, Link;
      AddLink(c);
      SetItem(c, Some(q));
      PutList(q, [c] + lists[q]);
    }

    method PopItem(c: Connect)
      requires Wf(View()) && c in live
      modifies this`lists, this`dead, this`fault, c
      ensures View() == BrokerState.PopItem(old(View()), c)
    {
      hide Server.Conns, Wf, Grounded, ConnsLive, Unlink, Without;
      ConnIsLive(View(), c);
      ModeFields(c);
      if c.item.Some? {
        var q := c.item.value;
        SetItem(c, None);
        PutList(q, Without(lists[q], c));
        DropLink(c);
      }
    }

    method SetSubName(c: Connect, name: string)
      requires c in live
      modifies c`subName
      ensures View() == Upd(old(View()), c, old(View()).conns[c].(subName := name))
    {
      hide Connect.Value, Server.Conns;
      ValueOf(c);
      c.SetSubName(name);
      Updated(c);
    }

    /** A new worker item unless the connection already has one. */
    method Enlist(q: nat, w: Connect, name: string)
      requires w in live && q < |lists|
      modifies this`lists, w
      ensures View() == WorkerRequests.Enlist(old(View()), q, w, name)
    {
      hide Server.Conns, BrokerState.PushItem;
      ModeFields(w);
      WorkerFields(w);
      if w.item.None? {
        var worker := !w.workerMode && w.noid;
        if w.workerMode || w.noid || w.status == WorkerWaitJob { PushItem(w, q); }
        if worker { SetSubName(w, name); }
      }
    }

    // Registering

    method NameConnection(w: Connect, id: string)
      requires w in live
      modifies w`connectionId
      ensures View() == Upd(old(View()), w, old(View()).conns[w].(connectionId := id))
    {
      hide Connect.Value, Server.Conns;
      ValueOf(w);
      w.SetConnectionId(id);
      Updated(w);
    }

    method ResolveConnectionId(w: Connect, rnd: Entropy)
      requires w in live
      modifies this`idIndex, w
      ensures View() == Common.ResolveConnectionId(old(View()), w, rnd)
    {
      hide Server.Conns, GeneratedId;
      WorkerFields(w);
      if w.connectionId == "" {
        idIndex := idIndex + 1;
        NameConnection(w, GeneratedId(idIndex, rnd));
      }
    }

    /** Opens the queue, gives the worker an id, and unlists a worker that moves to another name. */
    method Prepare(w: Connect, name: string, rnd: Entropy) returns (q: nat)
      requires Wf(View()) && w in live
      modifies this`workers, this`clients, this`lists, this`names, this`dead, this`fault, this`idIndex, w
      ensures View() == WorkerRequests.Prepare(old(View()), w, name, rnd) && q == OpenedQueue(old(View()), name)
    {
      hide Server.Conns, Wf, Grounded, ConnsLive, OpenQueue, OpenedQueue, Common.ResolveConnectionId;
      hide BrokerState.PopItem;
      WfShape(View());
      OpenQueueWf(View(), name);
      q := UseQueue(name);
      ResolveConnectionIdWf(View(), w, rnd);
      ResolveConnectionId(w, rnd);
      ModeFields(w);
      if !w.workerMode && w.subName != name { PopItem(w); }
    }

    /** The worker takes a waiting call or waits itself; `taken` tells that it got a job. */
    method ServeQueue(q: nat, w: Connect, name: string, rnd: Entropy) returns (taken: bool)
      requires Wf(View()) && w in live && q < |lists| && w.status != ClientWaitResult
      modifies this, live
      ensures WorkerRequests.Added(View(), taken) == WorkerRequests.Serve(old(View()), q, w, name, rnd)
    {
      hide Server.Conns, Wf, Grounded, ConnsLive;
      hide WorkerRequests.FindMessage, WorkerRequests.Take, WorkerRequests.Park, WorkerRequests.Enlist;
      hide Server.HasMessage, Takes;
      ModeFields(w);
      ServeFacts(View(), q, w, rnd);
      var l, i;
      taken, l, i := FindMessage(q, w.nloop, w, rnd);
      if taken { Take(q, l, i, w); } else { Park(q, w); }
      Enlist(q, w, name);
    }

    /** _add_worker for one queue name. */
    method AddWorker(w: Connect, rawName: string, rnd: Entropy) returns (taken: bool)
      requires Wf(View()) && w in live && w.status != ClientWaitResult
      modifies this, live
      ensures WorkerRequests.Added(View(), taken) == WorkerRequests.AddWorker(old(View()), w, rawName, rnd)
    {
      hide Server.Conns, Wf, Grounded, ConnsLive, WorkerRequests.Prepare, WorkerRequests.Serve;
      var name := WorkerRequests.StripSlash(rawName);
      PrepareStatus(View(), w, name, rnd);
      WorkerFields(w);
      var q := Prepare(w, name, rnd);
      WorkerFields(w);
      taken := ServeQueue(q, w, name, rnd);
    }

    /** The worker registers under each of the names, separated by commas or blanks, until a queue has a job for it. */
    method AddWorkers(w: Connect, names: string, rnd: Entropy)
      requires Wf(View()) && w in live && w.status != ClientWaitResult
      modifies this, live
      ensures View() == WorkerRequests.AddWorkers(old(View()), w, WorkerRequests.SplitNames(names, 0, 0), rnd)
    {
      hide Server.Conns, Wf, Grounded, ConnsLive, WorkerRequests.AddWorker, WorkerRequests.AddWorkers, Registering;
      ghost var s := View();
      RegisterBegins(s, w, names, rnd);
      var start: nat, i: nat := 0, 0;
      while i < |names|
        invariant start <= i <= |names| && live == old(live) && w.status != ClientWaitResult
        invariant Registering(s, View(), w, names, start, i, rnd)
      {
        RegisterGoesOn(s, View(), w, names, start, i, rnd);
        if names[i] == ',' || names[i] == ' ' {
          var n := names[start..i];
          start := i + 1;
          var taken := AddWorker(w, n, rnd);
          if taken { return; }
          WorkerFields(w);
        }
        i := i + 1;
      }
      RegisterEnds(s, View(), w, names, start, rnd);
      if start < |names| {
        var taken := AddWorker(w, names[start..], rnd);
      }
    }

    // Results

    lemma AwaitedIsLive(id: string)
      requires Wf(View()) && id in wait
      ensures wait[id] in live
    {
      hide WorkersLive, ClientsLive, ListsLive, ConnsLive;
    }

    lemma ClientIsLive(w: Connect)
      requires Wf(View()) && w in live && w.client.Some?
      ensures w.client.value in live
    {
      ConnIsLive(View(), w);
    }

    method RemoveWait(id: string)
      modifies this`wait
      ensures View() == old(View()).(wait := old(View()).wait - {id})
    {
      hide Server.Conns;
      wait := wait - {id};
    }

    /** worker_result: 0 for a result that is delivered, -1 for an unknown id, -2 for a client that has gone. */
    method WorkerResult(id: string, body: Option<string>) returns (code: int)
      requires Wf(View())
      modifies this`wait, this`dead, this`fault, live
      ensures Sessions.Delivery(View(), code) == Sessions.WorkerResult(old(View()), id, body)
    {
      hide Server.Conns, Wf, Grounded, ConnsLive, Unlink, Send, SetStatus;
      if id !in wait { return -1; }
      AwaitedIsLive(id);
      Sessions.RemoveWaitWf(View(), id);
      var c := wait[id];
      RemoveWait(id);
      UnlinkWf(View(), c);
      DropLink(c);
      ClientFields(c);
      if c.closed { return -2; }
      var reply := if body.Some? then AnswerWithId(id, body.value) else Unavailable;
      SendWf(View(), c, reply);
      Reply(c, reply);
      Become(c, Net);
      code := 0;
    }

    method Throw()
      modifies this`fault
      ensures View() == old(View()).(fault := true)
    {
      hide Server.Conns;
      fault := true;
    }

    /** A worker that is not in worker mode stops being a worker without ids once it has answered. */
    method Release(w: Connect)
      requires w in live
      modifies w
      ensures View() == Upd(old(View()), w, Sessions.Released(old(View()).conns[w]))
    {
      hide Connect.Value, Server.Conns, Sessions.Released;
      ValueOf(w);
      ReleaseFields(w);
      Updated(w);
    }

    static method ReleaseFields(w: Connect)
      modifies w
      ensures w.Value() == Sessions.Released(old(w.Value()))
    {
      hide Connect.Value;
      ConnFields(w, w.Value());
      if !w.workerMode { w.SetRole(false, false, false); }
      w.SetClient(None);
    }

    /** worker_result_noid: 0 for a result that is delivered, -2 for a client that has gone. */
    method WorkerResultNoid(w: Connect) returns (code: int)
      requires Wf(View()) && w in live
      modifies this`dead, this`fault, live
      ensures Sessions.Delivery(View(), code) == Sessions.WorkerResultNoid(old(View()), w)
    {
      hide Server.Conns, Wf, Grounded, ConnsLive, Unlink, Send, SetStatus, Sessions.Released, Upd;
      ModeFields(w);
      RequestFields(w);
      if w.client.None? {
        Throw();
        return 0;
      }
      ClientIsLive(w);
      var c, body := w.client.value, w.body;
      ReleasedWf(View(), w);
      Release(w);
      UnlinkWf(View(), c);
      DropLink(c);
      ClientFields(c);
      if c.closed { return -2; }
      SetStatusWf(View(), c, Net);
      Become(c, Net);
      Reply(c, Answer(body));
      code := 0;
    }

    // Disconnecting

    method ForgetCall(c: Connect)
      requires Wf(View()) && c in live
      modifies this`wait, this`dead, this`fault, c`link
      ensures View() == Sessions.ForgetCall(old(View()), c)
    {
      hide Server.Conns, Wf, Grounded, ConnsLive, Unlink;
      IdFields(c);
      ClientFields(c);
      if c.status == ClientWaitResult && c.id != "" && c.id in wait {
        RemoveWait(c.id);
        DropLink(c);
      }
    }

    method PointAt(w: Connect, client: Option<Connect>)
      requires w in live
      modifies w`client
      ensures View() == BrokerState.SetClient(old(View()), w, client)
    {
      hide Connect.Value, Server.Conns;
      ValueOf(w);
      w.SetClient(client);
      Updated(w);
    }

    /** The client of a lost worker is told. */
    method FailServed(c: Connect)
      requires Wf(View()) && c in live
      modifies this`wait, this`dead, this`fault, live
      ensures View() == Sessions.FailServed(old(View()), c)
    {
      hide Server.Conns, Wf, Grounded, ConnsLive, Send, SetStatus, Sessions.WorkerResult;
      ModeFields(c);
      ClientFields(c);
      if c.noid {
        FailOwed(c);
      } else if c.client.Some? {
        ClientIsLive(c);
        IdFields(c.client.value);
        var code := WorkerResult(c.client.value.id, None);
      }
    }

    method FailOwed(c: Connect)
      requires Wf(View()) && c in live && View().conns[c].noid
      modifies this`fault, live
      ensures View() == Sessions.FailServed(old(View()), c)
    {
      hide Server.Conns, Wf, Grounded, ConnsLive, Send, SetStatus, Sessions.WorkerResult;
      ModeFields(c);
      ClientFields(c);
      if c.status == WorkerWaitResult {
        if c.client.None? {
          Throw();
          return;
        }
        ClientIsLive(c);
        var d := c.client.value;
        ClientFields(d);
        SendWf(View(), d, Unavailable);
        if !d.closed { Reply(d, Unavailable); }
        Become(d, Net);
      } else if c.client.Some? {
        Throw();
      }
    }

    method DropClient(c: Connect)
      requires Wf(View()) && c in live
      modifies this`dead, this`fault, live
      ensures View() == Sessions.DropClient(old(View()), c)
    {
      hide Server.Conns, Wf, Grounded, ConnsLive, Unlink, BrokerState.SetClient;
      ModeFields(c);
      if c.client.Some? {
        ClientIsLive(c);
        var d := c.client.value;
        SetClientWf(View(), c, None);
        PointAt(c, None);
        DropLink(d);
      }
    }

    method Forget(c: Connect)
      requires Wf(View()) && c in live
      modifies this`lists, this`wait, this`dead, this`fault, c
      ensures View() == Sessions.Forget(old(View()), c)
    {
      hide Server.Conns, Wf, Grounded, ConnsLive, BrokerState.PopItem, Sessions.ForgetCall;
      PopItemWf(View(), c);
      PopItem(c);
      ForgetCall(c);
    }

    method OnDisconnect(c: Connect)
      requires Wf(View()) && c in live
      modifies this`lists, this`wait, this`dead, this`fault, live
      ensures View() == Sessions.OnDisconnect(old(View()), c)
    {
      hide Server.Conns, Wf, Grounded, ConnsLive, Sessions.Forget, Sessions.FailServed, Sessions.DropClient;
      Forget(c);
      ModeFields(c);
      if c.failOnDisconnect {
        FailServed(c);
        DropClient(c);
      }
    }

    method MarkClosed(c: Connect)
      requires c in live
      modifies c`closed
      ensures View() == Sessions.SetClosed(old(View()), c)
    {
      hide Connect.Value, Server.Conns;
      ValueOf(c);
      c.Close();
      Updated(c);
    }

    method LeaveTable(c: Connect)
      modifies this`table
      ensures View() == Sessions.LeaveTable(old(View()), c)
    {
      hide Server.Conns;
      table := table - {c};
    }

    /** _close: the connection is marked closed, its duties are settled, and it leaves the table. */
    method Disconnect(c: Connect)
      requires Wf(View()) && c in live
      modifies this, live
      ensures View() == Sessions.Disconnect(old(View()), c)
    {
      hide Server.Conns, Wf, Grounded, ConnsLive, Unlink;
      hide Sessions.SetClosed, Sessions.OnDisconnect, Sessions.LeaveTable;
      Sessions.SetClosedWf(View(), c);
      MarkClosed(c);
      OnDisconnect(c);
      DropLink(c);
      LeaveTable(c);
    }

    // Requests

    /** What the first line of a request resets; a worker that is not in worker mode is a worker no more. */
    method Refresh(c: Connect, retire: bool)
      requires c in live
      modifies c
      ensures var v := Sessions.Fresh(old(View()).conns[c]);
        View() == Upd(old(View()), c, if retire then v.(failOnDisconnect := false, noid := false) else v)
    {
      ValueOf(c);
      hide Connect.Value, Sessions.Fresh;
      RefreshFields(c, retire);
      Updated(c);
      hide Server.Conns;
    }


    static lemma ConnFields(c: Connect, v: Conn)
      requires v == c.Value()
      ensures v.workerMode == c.workerMode && v.connectionId == c.connectionId && v.name == c.name && v.noid == c.noid
      ensures v.failOnDisconnect == c.failOnDisconnect && v.ping == c.ping && v.pingTimeout == c.pingTimeout
      ensures v.started == c.started && v.noResponse == c.noResponse && v.spoilt == c.spoilt
    {
    }

    static method RefreshFields(c: Connect, retire: bool)
      modifies c
      ensures var v := Sessions.Fresh(old(c.Value()));
        c.Value() == if retire then v.(failOnDisconnect := false, noid := false) else v
    {
      hide Connect.Value, Sessions.Fresh, Blanked;
      ConnFields(c, c.Value());
      FreshIs(c.Value());
      BlankFields(c);
      ConnFields(c, c.Value());
      if !c.workerMode { c.SetNames("", c.connectionId); }
      ConnFields(c, c.Value());
      if retire { c.SetRole(c.workerMode, false, false); }
    }

    static method BlankFields(c: Connect)
      modifies c
      ensures c.Value() == Blanked(old(c.Value()))
    {
      hide Connect.Value;
      c.SetRequest("", "", "");
      c.SetOptions(0, "", false);
      c.SetProgress(true, false);
    }

    /** The start of a request; a worker whose registration broke off is thrown out. */
    method Begin(c: Connect)
      requires Wf(View()) && c in live
      modifies this, live
      ensures View() == Sessions.Begin(old(View()), c)
    {
      hide Server.Conns, Wf, Grounded, ConnsLive, Sessions.Disconnect, Sessions.DropClient, Sessions.Fresh, Upd;
      ModeFields(c);
      ClientFields(c);
      FreshWf(View(), c);
      if c.status == WorkerWaitResult {
        if c.noid { Refresh(c, false); } else { Disconnect(c); }
      } else if c.workerMode {
        if c.status == WorkerModeAsync { Refresh(c, false); } else { Disconnect(c); }
      } else {
        Refresh(c, true);
        DropClient(c);
      }
    }

    /** The fields a connection takes from the headers and the body. */
    method Fill(c: Connect, r: Sessions.Request, now: nat)
      requires c in live
      modifies c
      ensures View() == Upd(old(View()), c, Sessions.Filled(old(View()).conns[c], r, now))
    {
      ValueOf(c);
      hide Connect.Value, Sessions.Filled;
      FillFields(c, r, now);
      Updated(c);
      hide Server.Conns;
    }

    static method FillRequest(c: Connect, r: Sessions.Request)
      modifies c
      ensures c.Value() == Requested(old(c.Value()), r)
    {
      hide Connect.Value;
      c.SetRequest(r.body, r.id, r.jsonId);
      c.SetOptions(r.priority, r.requiredWorker, r.ifPresent);
    }

    static method FillFields(c: Connect, r: Sessions.Request, now: nat)
      modifies c
      ensures c.Value() == Sessions.Filled(old(c.Value()), r, now)
    {
      var name := if r.name != "" && (c.workerMode || r.kind != Sessions.Call) then r.name else c.name;
      var connectionId := if r.setId != "" then r.setId else c.connectionId;
      var ping := if r.ping > 0 then r.ping else c.ping;
      var pingTimeout := if ping > 0 then now + ping else c.pingTimeout;
      var noResponse := c.noResponse;
      ghost var v := c.Value();
      ConnFields(c, v);
      FilledIs(v, r, now, name, connectionId, ping, pingTimeout);
      hide Connect.Value, Sessions.Filled, Requested, Titled, Timed;
      FillRequest(c, r);
      FillNames(c, name, connectionId);
      FillTimes(c, ping, pingTimeout, noResponse);
    }

    static method FillNames(c: Connect, name: string, connectionId: string)
      modifies c
      ensures c.Value() == Titled(old(c.Value()), name, connectionId)
    {
      hide Connect.Value;
      c.SetNames(name, connectionId);
    }

    static method FillTimes(c: Connect, ping: nat, pingTimeout: nat, noResponse: bool)
      modifies c
      ensures c.Value() == Timed(old(c.Value()), ping, pingTimeout, noResponse)
    {
      hide Connect.Value;
      c.SetPing(ping, pingTimeout);
      c.SetProgress(false, noResponse);
    }

    /** What the type of the request makes of the connection. */
    method Mark(c: Connect, r: Sessions.Request)
      requires c in live
      modifies c
      ensures View() == Upd(old(View()), c, Sessions.Marked(old(View()).conns[c], r))
    {
      ValueOf(c);
      hide Connect.Value, Sessions.Marked;
      MarkFields(c, r);
      Updated(c);
      hide Server.Conns;
    }

    static method MarkFields(c: Connect, r: Sessions.Request)
      modifies c
      ensures c.Value() == Sessions.Marked(old(c.Value()), r)
    {
      hide Connect.Value, Sessions.Marked;
      var adds := r.kind == Sessions.Add || r.kind == Sessions.AddWorkerMode;
      var failOnDisconnect := c.failOnDisconnect || (adds && (r.noid || r.failOnDisconnect));
      var noid := c.noid || (adds && r.noid);
      var spoilt := c.spoilt || (r.kind == Sessions.AddWorkerMode && r.broken);
      var workerMode := c.workerMode || r.kind == Sessions.AddWorkerMode;
      var started := c.started;
      ghost var v := c.Value();
      ConnFields(c, v);
      MarkedIs(v, r, workerMode, noid, failOnDisconnect, spoilt);
      c.SetProgress(started, r.kind == Sessions.AsyncCall && !r.broken);
      c.SetRole(workerMode, noid, failOnDisconnect);
      c.SetSpoilt(spoilt);
    }

    method LeaveWorkerMode(c: Connect)
      requires c in live
      modifies c
      ensures View() == Upd(old(View()), c, old(View()).conns[c].(workerMode := false))
    {
      ValueOf(c);
      ghost var v := c.Value();
      c.workerMode := false;
      assert c.Value() == v.(workerMode := false);
      hide Connect.Value;
      Updated(c);
      hide Server.Conns;
    }

    /** In worker mode a connection always is a worker without ids. */
    method Engage(c: Connect)
      requires c in live
      modifies c
      ensures View() == Upd(old(View()), c, Sessions.Engaged(old(View()).conns[c]))
    {
      ValueOf(c);
      ghost var v := c.Value();
      if c.workerMode { c.noid, c.failOnDisconnect := true, true; }
      assert c.Value() == Sessions.Engaged(v);
      hide Connect.Value, Sessions.Engaged;
      Updated(c);
      hide Server.Conns;
    }

    /** rpc_add: registers under the names the connection carries. */
    method RpcAdd(c: Connect, rnd: Entropy)
      requires Wf(View()) && c in live && c.status != ClientWaitResult
      modifies this, live
      ensures View() == Sessions.RpcAdd(old(View()), c, rnd)
    {
      hide Server.Conns, Wf, Grounded, ConnsLive, Send, WorkerRequests.AddWorkers, WorkerRequests.SplitNames;
      RequestFields(c);
      ClientFields(c);
      RpcAddWf(View(), c);
      var name := c.name;
      if name == "" {
        LeaveWorkerMode(c);
        Reply(c, NoName);
      } else {
        Engage(c);
        ClientFields(c);
        AddWorkers(c, name, rnd);
      }
    }

    /** The worker leaves worker mode and its list. */
    method Stop(c: Connect)
      requires Wf(View()) && c in live
      modifies this`lists, this`dead, this`fault, c
      ensures View() == Sessions.Stop(old(View()), c)
    {
      hide Server.Conns, Wf, Grounded, ConnsLive, Send, SetStatus, BrokerState.PopItem;
      PopItemWf(View(), c);
      PopItem(c);
      LeaveWorkerMode(c);
      Reply(c, Ok);
      Become(c, Net);
    }

    /** A worker-mode connection answers its current job, if any, and asks for the next one or stops. */
    method NextJob(c: Connect, stop: bool, rnd: Entropy)
      requires Wf(View()) && c in live && c.status != ClientWaitResult
      modifies this, live
      ensures View() == Sessions.NextJob(old(View()), c, stop, rnd)
    {
      hide Server.Conns, Wf, Grounded, ConnsLive, Sessions.WorkerResultNoid, Sessions.Stop, Sessions.RpcAdd;
      ClientFields(c);
      ResultStatus(View(), c);
      if c.status != WorkerModeAsync {
        var code := WorkerResultNoid(c);
        ClientFields(c);
      }
      if stop { Stop(c); } else { RpcAdd(c, rnd); }
    }

    /** The reply to a result, by the code of its delivery. */
    method Acknowledge(c: Connect, code: int)
      requires Wf(View()) && c in live
      modifies this`fault, c
      ensures View() == Sessions.Acknowledge(old(View()), c, code)
    {
      hide Server.Conns, Wf, Grounded, ConnsLive, Send, SetStatus;
      var reply := if code == 0 then Ok else if code == -2 then ClientGone else WrongId;
      SendWf(View(), c, reply);
      Reply(c, reply);
      Become(c, Net);
    }

    /** A worker without ids owes a result before anything else. */
    method FinishJob(c: Connect, isResult: bool)
      requires Wf(View()) && c in live
      modifies this, live
      ensures View() == Sessions.FinishJob(old(View()), c, isResult)
    {
      hide Server.Conns, Wf, Grounded, ConnsLive, Send, Sessions.WorkerResultNoid, Sessions.Acknowledge;
      if isResult {
        var code := WorkerResultNoid(c);
        Acknowledge(c, code);
      } else {
        Reply(c, ResultExpected);
      }
    }

    /** rpc_result: the id comes from the header, the path or the body. */
    method RpcResult(c: Connect)
      requires Wf(View()) && c in live
      modifies this, live
      ensures View() == Sessions.RpcResult(old(View()), c)
    {
      hide Server.Conns, Wf, Grounded, ConnsLive, Send, SetStatus, Sessions.WorkerResult, Sessions.Acknowledge;
      RequestFields(c);
      var id := if c.id != "" then c.id else c.jsonId;
      if id == "" {
        SendWf(View(), c, NoId);
        Reply(c, NoId);
        Become(c, Net);
      } else {
        var code := WorkerResult(id, Some(c.body));
        Acknowledge(c, code);
      }
    }

    /** header_completed: the request has arrived in full. */
    method Complete(c: Connect, r: Sessions.Request, now: nat, rnd: Entropy)
      requires Wf(View()) && c in live && Listens(View().conns[c])
      modifies this, live
      ensures View() == Sessions.Complete(old(View()), c, r, now, rnd)
    {
      hide Server.Conns, Wf, Grounded, ConnsLive, Send;
      hide Sessions.Filled, Sessions.Marked, Sessions.NextJob, Sessions.FinishJob, Sessions.Perform;
      CompleteFacts(View(), c, r, now);
      Fill(c, r, now);
      ModeFields(c);
      ClientFields(c);
      if r.kind == Sessions.Echo {
        Reply(c, Ok);
      } else if c.workerMode {
        NextJob(c, r.stop, rnd);
      } else if c.noid {
        FinishJob(c, r.kind == Sessions.Result);
      } else {
        MarkFacts(View(), c, r);
        Mark(c, r);
        ClientFields(c);
        Perform(c, r, rnd);
      }
    }

    method Perform(c: Connect, r: Sessions.Request, rnd: Entropy)
      requires Wf(View()) && c in live && r.kind != Sessions.Echo && c.status == Net
      modifies this, live
      ensures View() == Sessions.Perform(old(View()), c, r, rnd)
    {
      hide Server.Conns, Wf, Grounded, ConnsLive, Sessions.Handled, Send;
      ClientFields(c);
      RequestFields(c);
      if r.broken && (r.kind != Sessions.Result || (c.id == "" && c.jsonId == "")) {
        Reply(c, InvalidData);
      } else {
        Carry(c, r, rnd);
      }
    }

    method Carry(c: Connect, r: Sessions.Request, rnd: Entropy)
      requires Wf(View()) && c in live && r.kind != Sessions.Echo && c.status == Net
      modifies this, live
      ensures View() == Sessions.Handled(old(View()), c, r, rnd)
    {
      hide Server.Conns, Wf, Grounded, ConnsLive, ClientRequests.ClientRequest, Sessions.RpcAdd, Sessions.RpcResult;
      match r.kind
      case Call => ClientRequest(c, r.name, rnd);
      case AsyncCall => ClientRequest(c, r.name, rnd);
      case Add => RpcAdd(c, rnd);
      case AddWorkerMode => RpcAdd(c, rnd);
      case Result => RpcResult(c);
    }

    // Periodic work

    /** _check_timeout for one deque entry. */
    method TimeoutOne(w: Connect, now: nat)
      requires Wf(View()) && w in live
      modifies this`fault, live
      ensures View() == Sessions.TimeoutOne(old(View()), w, now)
    {
      hide Server.Conns, Wf, Grounded, ConnsLive, Send;
      TimeoutFacts(View(), w, now);
      WorkerFields(w);
      ModeFields(w);
      PingFields(w);
      if w.ping > 0 && w.pingTimeout <= now && !w.closed && w.status == WorkerWaitJob {
        Expire(w, now);
        Reply(w, Timeout);
      }
    }

    lemma PingFields(w: Connect)
      requires w in live
      ensures View().conns[w].ping == w.ping && View().conns[w].pingTimeout == w.pingTimeout
    {
    }

    method Expire(w: Connect, now: nat)
      requires w in live
      modifies w
      ensures View() == Upd(old(View()), w, Expired(old(View()).conns[w], now))
    {
      hide Connect.Value, Server.Conns, Expired;
      ValueOf(w);
      ExpireFields(w, now);
      Updated(w);
    }

    static method ExpireFields(w: Connect, now: nat)
      modifies w
      ensures w.Value() == Expired(old(w.Value()), now)
    {
      hide Connect.Value, Expired;
      ghost var v := w.Value();
      ConnFields(w, v);
      var ping, later, status := w.ping, now + w.ping, if w.workerMode then WorkerModeAsync else Net;
      ExpiredIs(v, now, later, status);
      w.SetStatus(status);
      w.SetPing(ping, later);
    }

    /** _check_timeout: every entry of every deque, in order. */
    method CheckTimeout(now: nat)
      requires Wf(View())
      modifies this`fault, live
      ensures View() == Sessions.CheckTimeout(old(View()), now)
    {
      hide Server.Conns, Wf, Grounded, ConnsLive, Timing, Sessions.CheckTimeout, Flat;
      ghost var s := View();
      TimingBegins(s, now);
      LinesOf(s);
      var q: nat := 0;
      while q < |workers|
        invariant q <= |workers| && live == old(live)
        invariant Timing(s, View(), Flat(workers[q..]), now)
      {
        FlatFirst(workers, q);
        TimeoutLine(q, now, s, Flat(workers[q + 1..]));
        q := q + 1;
      }
      TimingEnds(s, View(), Flat(workers[q..]), now) by { assert workers[q..] == []; FlatNone(workers[q..]); }
    }

    method TimeoutLine(q: nat, now: nat, ghost s: State, ghost after: seq<Connect>)
      requires q < |workers| && Timing(s, View(), Join(workers[q]) + after, now)
      modifies this`fault, live
      ensures Timing(s, View(), after, now)
    {
      hide Server.Conns, Wf, Grounded, ConnsLive, Timing, Join;
      var l: nat := 0;
      assert workers[q][0..] == workers[q];
      while l < |workers[q]|
        invariant l <= |workers[q]| && live == old(live)
        invariant Timing(s, View(), Join(workers[q][l..]) + after, now)
      {
        JoinFirst(workers[q], l, after);
        TimeoutDeque(q, l, now, s, Join(workers[q][l + 1..]) + after);
        l := l + 1;
      }
      assert workers[q][l..] == [];
      JoinNone(workers[q][l..], after);
    }

    method TimeoutDeque(q: nat, l: nat, now: nat, ghost s: State, ghost after: seq<Connect>)
      requires q < |workers| && l < |workers[q]| && Timing(s, View(), workers[q][l] + after, now)
      modifies this`fault, live
      ensures Timing(s, View(), after, now)
    {
      hide Server.Conns, Wf, Grounded, ConnsLive, Timing, Sessions.TimeoutOne;
      var i: nat := 0;
      assert workers[q][l][0..] == workers[q][l];
      while i < |workers[q][l]|
        invariant i <= |workers[q][l]| && live == old(live)
        invariant Timing(s, View(), workers[q][l][i..] + after, now)
      {
        var w := workers[q][l][i];
        assert workers[q][l][i..] + after == [w] + (workers[q][l][i + 1..] + after);
        TimingGoesOn(s, View(), w, workers[q][l][i + 1..] + after, now);
        TimeoutOne(w, now);
        i := i + 1;
      }
      assert workers[q][l][i..] + after == after;
    }

    /** The janitor's pass over one worker deque. */
    method CleanWorkers(q: nat, l: nat)
      requires Wf(View()) && q < |workers| && l < threads
      modifies this`workers, this`dead, this`fault, live`link
      ensures View() == Sessions.CleanWorkers(old(View()), q, l, 0)
    {
      hide Server.Conns, Wf, Grounded, ConnsLive, CleaningWorkers, Sessions.CleanWorkers, EraseWorker, SameFrame;
      ghost var s := View();
      CleanWorkersBegins(s, q, l);
      var i: nat := 0;
      while i < |workers[q][l]|
        invariant q < |workers| && l < |workers[q]| && i <= |workers[q][l]|
        invariant CleaningWorkers(s, View(), q, l, i)
        decreases |workers[q][l]| - i
      {
        i := CleanWorkersOn(s, q, l, i);
      }
      CleanWorkersEnds(s, View(), q, l, i);
    }

    method CleanWorkersOn(ghost s: State, q: nat, l: nat, i: nat) returns (next: nat)
      requires q < |workers| && l < |workers[q]| && i < |workers[q][l]| && CleaningWorkers(s, View(), q, l, i)
      modifies this`workers, this`dead, this`fault, live`link
      ensures q < |workers| && l < |workers[q]| && next <= |workers[q][l]| && CleaningWorkers(s, View(), q, l, next)
      ensures |workers[q][l]| - next < old(|workers[q][l]|) - i
    {
      hide Server.Conns, Wf, Grounded, ConnsLive, CleaningWorkers, Sessions.CleanWorkers, EraseWorker, SameFrame;
      CleanWorkersGoesOn(s, View(), q, l, i);
      var x := workers[q][l][i];
      WorkerFields(x);
      next := i;
      if x.closed || x.status != WorkerWaitJob { EraseWorkerAt(q, l, i); } else { next := i + 1; }
    }

    /** The janitor's pass over one client deque. */
    method CleanClients(q: nat, l: nat)
      requires Wf(View()) && q < |clients| && l < threads
      modifies this`clients, this`dead, this`fault, live`link
      ensures View() == Sessions.CleanClients(old(View()), q, l, 0)
    {
      hide Server.Conns, Wf, Grounded, ConnsLive, CleaningClients, Sessions.CleanClients, EraseMessage, SameFrame;
      ghost var s := View();
      CleanClientsBegins(s, q, l);
      var i: nat := 0;
      while i < |clients[q][l]|
        invariant q < |clients| && l < |clients[q]| && i <= |clients[q][l]|
        invariant CleaningClients(s, View(), q, l, i)
        decreases |clients[q][l]| - i
      {
        i := CleanClientsOn(s, q, l, i);
      }
      CleanClientsEnds(s, View(), q, l, i);
    }

    method CleanClientsOn(ghost s: State, q: nat, l: nat, i: nat) returns (next: nat)
      requires q < |clients| && l < |clients[q]| && i < |clients[q][l]| && CleaningClients(s, View(), q, l, i)
      modifies this`clients, this`dead, this`fault, live`link
      ensures q < |clients| && l < |clients[q]| && next <= |clients[q][l]| && CleaningClients(s, View(), q, l, next)
      ensures |clients[q][l]| - next < old(|clients[q][l]|) - i
    {
      hide Server.Conns, Wf, Grounded, ConnsLive, CleaningClients, Sessions.CleanClients, EraseMessage, SameFrame;
      CleanClientsGoesOn(s, View(), q, l, i);
      var m := clients[q][l][i];
      next := i + 1;
      if m.conn.Some? {
        ClientFields(m.conn.value);
        if m.conn.value.closed || m.conn.value.status != ClientWaitResult {
          EraseMessageAt(q, l, i);
          next := i;
        }
      }
    }

    method CleanLine(q: nat)
      requires Wf(View()) && q < |lists|
      modifies this`workers, this`clients, this`dead, this`fault, live`link
      ensures View() == Sessions.CleanLine(old(View()), q, 0)
    {
      hide Server.Conns, Wf, Grounded, ConnsLive, CleaningLine, SameFrame;
      hide Sessions.CleanLine, Sessions.CleanWorkers, Sessions.CleanClients;
      ghost var s := View();
      CleanLineBegins(s, q);
      var l: nat := 0;
      while l < threads
        invariant l <= threads
        invariant CleaningLine(s, View(), q, l)
      {
        CleanLineGoesOn(s, View(), q, l);
        CleanWorkers(q, l);
        CleanClients(q, l);
        l := l + 1;
      }
      CleanLineEnds(s, View(), q, l);
    }

    /** _clean_dead_tasks: queues whose lock is busy are skipped. */
    method Clean(locked: set<nat>)
      requires Wf(View())
      modifies this`workers, this`clients, this`dead, this`fault, live`link
      ensures View() == Sessions.Clean(old(View()), 0, locked)
    {
      hide Server.Conns, Wf, Grounded, ConnsLive, Cleaning, SameFrame, Sessions.CleanLine, Sessions.Clean;
      ghost var s := View();
      CleanBegins(s, locked);
      var q: nat := 0;
      while q < |lists|
        invariant q <= |lists|
        invariant Cleaning(s, View(), q, locked)
      {
        CleanGoesOn(s, View(), q, locked);
        if q !in locked { CleanLine(q); }
        q := q + 1;
      }
      CleanEnds(s, View(), q, locked);
    }

    // Birth and death

    /** A connection has been accepted on this loop. */
    method Accept(loop: nat) returns (c: Connect)
      requires forall x :: x in live ==> allocated(x)
      modifies this`live, this`table
      ensures fresh(c) && View() == Sessions.Accept(old(View()), c, loop)
    {
      hide Connect.Value;
      c := new Connect(loop);
      live := live + {c};
      table := table + {c};
      assert Conns() == old(Conns())[c := NewConnection(loop)];
      hide Server.Conns;
    }

    lemma DeadFields(c: Connect)
      requires c in live
      ensures View().conns[c].nloop == c.nloop && View().conns[c].link == c.link
    {
    }

    /** _delete_connections of one loop. */
    method DeleteConnections(loop: nat)
      requires Wf(View())
      modifies this`live, this`dead, this`buried
      ensures View() == Sessions.DeleteConnections(old(View()), loop)
    {
      hide Wf, Grounded, ConnsLive, Connect.Value, Server.Conns, Freeing;
      ghost var s := View();
      ghost var gone: set<Connect> := {};
      var kept: seq<Connect> := [];
      var i: nat := 0;
      FreeingBegins(s, loop);
      while i < |dead|
        invariant i <= |dead| && View() == s
        invariant Freeing(s, loop, i, kept, gone)
      {
        var c := dead[i];
        FreeingGoesOn(s, loop, i, kept, gone);
        DeadFields(c);
        if c.nloop != loop {
          kept := kept + [c];
        } else if c.link == 0 {
          gone := gone + {c};
        }
        i := i + 1;
      }
      FreeingEnds(s, loop, i, kept, gone);
      Free(kept, gone);
    }

    method Free(kept: seq<Connect>, ghost gone: set<Connect>)
      modifies this`live, this`dead, this`buried
      ensures var s := old(View());
        View() == s.(conns := s.conns - gone, dead := kept,
                     buried := s.buried + Carried(Among(s.conns, gone)))
    {
      hide Connect.Value, Carried;
      ghost var s := View();
      buried := buried + Carried(Among(s.conns, gone));
      live := live - gone;
      dead := kept;
      assert Conns() == old(Conns()) - gone;
      hide Server.Conns;
    }
  }
}
