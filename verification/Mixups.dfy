/** Runs with any number of connections on one loop, in which somebody is told or left what is not its due. */
module Mixups {
  import opened Connections
  import opened Deques
  import opened Names
  import opened BrokerState
  import opened Common
  import opened ClientRequests
  import opened WorkerRequests
  import opened Sessions
  import opened Invariants
  import opened Runs
  import opened Guarantees
  import opened Scenarios
  import LifeProofs
  import opened SessionProofs
  import Departures
  import Leads
  import Order

  /** These connections, and no queue yet. */
  function Yard(m: map<Connect, Conn>): State {
    Start(1).(conns := m, table := m.Keys)
  }

  /** These connections, and one queue without messages. */
  function Hall(m: map<Connect, Conn>, d: seq<Connect>, list: seq<Connect>, wait: map<string, Connect>): State {
    Start(1).(conns := m, table := m.Keys, names := Names(map["q" := 1], map[]), workers := [[d]], clients := [[[]]],
              lists := [list], wait := wait)
  }

  lemma UpdHall(m: map<Connect, Conn>, d: seq<Connect>, list: seq<Connect>, wait: map<string, Connect>,
                c: Connect, v: Conn)
    requires c in m
    ensures Upd(Hall(m, d, list, wait), c, v) == Hall(m[c := v], d, list, wait)
    ensures Upd(Yard(m), c, v) == Yard(m[c := v])
  {
    assert m[c := v].Keys == m.Keys;
  }

  lemma SeeHall(m: map<Connect, Conn>, d: seq<Connect>, list: seq<Connect>, wait: map<string, Connect>)
    ensures var s := Hall(m, d, list, wait);
      && s.conns == m && s.threads == 1 && s.names == Names(map["q" := 1], map[]) && s.table == m.Keys
      && s.workers == [[d]] && s.clients == [[[]]] && s.lists == [list] && s.wait == wait
    ensures var s := Yard(m);
      && s.conns == m && s.threads == 1 && s.names == NO_NAMES && s.table == m.Keys && s.lists == [] && s.workers == []
  {
  }

  lemma FillHall(m: map<Connect, Conn>, d: seq<Connect>, list: seq<Connect>, wait: map<string, Connect>,
                 e: seq<Connect>, other: seq<Connect>, more: map<string, Connect>)
    ensures var s := Hall(m, d, list, wait);
      && |s.workers| == |s.lists| == 1 && |s.workers[0]| == 1 && SetWorkers(s, 0, 0, e) == Hall(m, e, list, wait)
      && s.(lists := s.lists[0 := other]) == Hall(m, d, other, wait)
      && s.(wait := more) == Hall(m, d, list, more)
  {
    assert [d][0 := e] == [e] && [[d]][0 := [e]] == [[e]];
    assert [list][0 := other] == [other];
  }

  lemma Enters(m: map<Connect, Conn>, events: seq<Event>, c: Connect)
    requires Reachable(Yard(m), 1, events) && c !in m
    ensures Reachable(Yard(m[c := Fresh0()]), 1, events + [Accepted(c, 0)])
  {
    SeeHall(m, [], [], map[]);
    hide Reachable, Wf, Step, Grounded, ConnsLive;
    assert Accept(Yard(m), c, 0) == Yard(m[c := Fresh0()]) by {
      assert m[c := Fresh0()].Keys == m.Keys + {c};
    }
    assert Wf(Yard(m)) ==> Step(Yard(m), Accepted(c, 0)) == Yard(m[c := Fresh0()]) by { AcceptStep(Yard(m), c); }
    hide Yard, Accept;
    Then(Yard(m), events, Accepted(c, 0), Yard(m[c := Fresh0()]));
  }

  lemma AcceptStep(s: State, c: Connect)
    requires c !in s.conns && s.threads == 1
    ensures Wf(s) ==> Step(s, Accepted(c, 0)) == Accept(s, c, 0)
  {
    hide Wf;
  }

  // A worker registers

  function AddsAs(id: string, fail: bool): Request {
    BLANK.(kind := Add, name := "q", setId := id, failOnDisconnect := fail)
  }

  /** The worker as it asks for a job, as it waits, and as it is listed. */
  function Ready0(id: string, fail: bool): Conn {
    Fresh0().(name := "q", connectionId := id, failOnDisconnect := fail)
  }

  function Waiting0(id: string, fail: bool): Conn { Ready0(id, fail).(link := 2, status := WorkerWaitJob) }

  function Listed0(id: string, fail: bool): Conn { Waiting0(id, fail).(link := 3, item := Some(0)) }

  lemma AddsFacts(id: string, fail: bool)
    requires id != ""
    ensures var r := AddsAs(id, fail); var f := Filled(Begun0(), r, 0);
      && r.kind == Add && !r.broken && r.setId == id && !f.workerMode && !f.noid && Marked(f, r) == Ready0(id, fail)
    ensures var v := Ready0(id, fail);
      && v.name == "q" && v.connectionId == id && !v.workerMode && !v.noid && v.item.None? && v.client.None?
      && v.nloop == 0
      && v.link == 1 && v.subName == "" && v.(link := 2) .(status := WorkerWaitJob) == Waiting0(id, fail)
    ensures var v := Waiting0(id, fail);
      && v.item.None? && v.link == 2 && v.status == WorkerWaitJob && !v.workerMode && !v.noid
      && v.(link := 3).(item := Some(0)) == Listed0(id, fail)
    ensures Begun0().started && Listens(Begun0()) && Begun0().client.None? && Begun0().item.None? && Begun0().nloop == 0
  {
  }

  lemma QueueMade(m: map<Connect, Conn>)
    ensures CreateQueue(Yard(m), "q") == Hall(m, [], [], map[])
  {
    assert StarAt("q"[1..]) == 0 && StarAt("q") == 1;
    assert Register(NO_NAMES, "q", 1) == Names(map["q" := 1], map[]);
    var t := CreateQueue(Yard(m), "q");
    assert t.workers[0] == [[]] && t.clients[0] == [[]];
    assert t.workers == [[[]]] && t.clients == [[[]]] && t.lists == [[]];
  }

  /** The queue is there or is made; nothing else changes for a worker that has an id and is in no list. */
  lemma Prepares(s: State, t: State, x: Connect, id: string, fail: bool)
    requires Wf(s) && x in s.conns && s.conns[x] == Ready0(id, fail) && id != ""
    requires (FoundQueue(s, "q") == Some(0) && t == s)
          || (FoundQueue(s, "q") == None && t == CreateQueue(s, "q") && |s.lists| == 0)
    requires t.conns == s.conns
    ensures OpenedQueue(s, "q") == 0 && Prepare(s, x, "q", ZEROS) == t
  {
    AddsFacts(id, fail);
    OpenQueueWf(s, "q");
    hide Wf, CreateQueue, FoundQueue, Ready0, GeneratedId, Grounded, ConnsLive;
  }

  lemma Served0(m: map<Connect, Conn>, list: seq<Connect>, wait: map<string, Connect>,
                x: Connect, id: string, fail: bool)
    requires x in m && m[x] == Ready0(id, fail) && id != "" && Wf(Hall(m, [], list, wait))
    ensures |Hall(m, [], list, wait).lists| == 1
    ensures Serve(Hall(m, [], list, wait), 0, x, "q", ZEROS)
         == Added(Hall(m[x := Listed0(id, fail)], [x], [x] + list, wait), false)
  {
    hide Wf, Grounded, ConnsLive, FindMessage, Enlist, Hall, Ready0, Waiting0, Listed0, Park;
    AddsFacts(id, fail);
    SeeHall(m, [], list, wait);
    NothingFound(Hall(m, [], list, wait), x);
    ParkWf(Hall(m, [], list, wait), 0, x);
    Parks(m, list, wait, x, id, fail);
    Enlists(m[x := Waiting0(id, fail)], list, wait, x, id, fail);
    assert m[x := Waiting0(id, fail)][x := Listed0(id, fail)] == m[x := Listed0(id, fail)];
  }

  lemma Parks(m: map<Connect, Conn>, list: seq<Connect>, wait: map<string, Connect>, x: Connect, id: string, fail: bool)
    requires x in m && m[x] == Ready0(id, fail) && id != "" && Wf(Hall(m, [], list, wait))
    ensures |Hall(m, [], list, wait).workers| == 1
    ensures Park(Hall(m, [], list, wait), 0, x) == Hall(m[x := Waiting0(id, fail)], [x], list, wait)
  {
    hide Wf, Grounded, ConnsLive, Hall, Ready0, Waiting0, InsertAt, Upd;
    AddsFacts(id, fail);
    SeeHall(m, [], list, wait);
    var s := Hall(m, [], list, wait);
    assert Sweep(s, 0, 0, x, 0) == s;
    hide Sweep;
    OnlyOne(x);
    FillHall(m, [], list, wait, [x], list, wait);
    SeeHall(m, [x], list, wait);
    var v := m[x].(link := 2);
    UpdHall(m, [x], list, wait, x, v);
    SeeHall(m[x := v], [x], list, wait);
    UpdHall(m[x := v], [x], list, wait, x, v.(status := WorkerWaitJob));
    assert m[x := v][x := v.(status := WorkerWaitJob)] == m[x := v.(status := WorkerWaitJob)];
  }

  lemma Enlists(m: map<Connect, Conn>, list: seq<Connect>, wait: map<string, Connect>,
                x: Connect, id: string, fail: bool)
    requires x in m && m[x] == Waiting0(id, fail) && id != ""
    ensures x in Hall(m, [x], list, wait).conns && |Hall(m, [x], list, wait).lists| == 1
    ensures Enlist(Hall(m, [x], list, wait), 0, x, "q") == Hall(m[x := Listed0(id, fail)], [x], [x] + list, wait)
  {
    hide Hall, Waiting0, Listed0, Upd;
    AddsFacts(id, fail);
    SeeHall(m, [x], list, wait);
    var u := m[x].(link := 3);
    UpdHall(m, [x], list, wait, x, u);
    SeeHall(m[x := u], [x], list, wait);
    var v := u.(item := Some(0));
    UpdHall(m[x := u], [x], list, wait, x, v);
    FillHall(m[x := u][x := v], [x], list, wait, [x], [x] + list, wait);
    assert m[x := u][x := v] == m[x := v];
    SeeHall(m[x := v], [x], list, wait);
  }

  /** A request to register, from a connection that has not done anything yet. */
  lemma Registers(s: State, t: State, m: map<Connect, Conn>, list: seq<Connect>, wait: map<string, Connect>,
                  events: seq<Event>, x: Connect, id: string, fail: bool)
    requires Reachable(s, 1, events) && x in m && m[x] == Begun0() && id != ""
    requires (s == Yard(m) && list == [] && wait == map[]) || s == Hall(m, [], list, wait)
    requires t == Hall(m[x := Listed0(id, fail)], [x], [x] + list, wait)
    ensures Reachable(t, 1, events + [Completed(x, AddsAs(id, fail), 0, ZEROS)])
  {
    hide Reachable, Wf, Complete, Hall, Yard, Begun0, AddsAs, Listed0, Listens, Grounded, ConnsLive;
    AddsFacts(id, fail);
    SeeHall(m, [], list, wait);
    if Wf(s) {
      AddsToHall(s, m, list, wait, x, id, fail);
    }
    Completes(s, events, x, AddsAs(id, fail), t);
  }

  lemma AddsToHall(s: State, m: map<Connect, Conn>, list: seq<Connect>, wait: map<string, Connect>, x: Connect,
                   id: string, fail: bool)
    requires Wf(s) && x in m && m[x] == Begun0() && id != ""
    requires (s == Yard(m) && list == [] && wait == map[]) || s == Hall(m, [], list, wait)
    ensures x in s.conns
    ensures Complete(s, x, AddsAs(id, fail), 0, ZEROS) == Hall(m[x := Listed0(id, fail)], [x], [x] + list, wait)
  {
    hide Wf, Grounded, ConnsLive, Hall, Yard, Begun0, AddsAs, Listed0, Ready0, Upd, AddWorkers, Serve, SplitNames;
    hide Prepare, OpenedQueue, CreateQueue, FoundQueue, Complete, StripSlash;
    AddsFacts(id, fail);
    SeeHall(m, [], list, wait);
    ConnIsLive(s, x);
    var f := Ready0(id, fail);
    UpdWf(s, x, f);
    UpdHall(m, [], list, wait, x, f);
    UpdHall(m, [], [], map[], x, f);
    var n := m[x := f];
    SeeHall(n, [], list, wait);
    var y := Upd(s, x, f);
    CompleteAdds(s, x, id, fail);
    OneName();
    OneAddWorker(y, x);
    Leads.ShapeOf(y);
    QueueMade(n);
    if s == Hall(m, [], list, wait) {
      OneQueue(y);
      Prepares(y, y, x, id, fail);
    } else {
      NoQueue(y);
      Prepares(y, Hall(n, [], [], map[]), x, id, fail);
    }
    Served0(n, list, wait, x, id, fail);
    assert n[x := Listed0(id, fail)] == m[x := Listed0(id, fail)];
  }

  lemma CompleteAdds(s: State, x: Connect, id: string, fail: bool)
    requires Wf(s) && x in s.conns && s.conns[x] == Begun0() && id != ""
    ensures var y := Upd(s, x, Ready0(id, fail));
      Wf(y) && x in y.conns && Complete(s, x, AddsAs(id, fail), 0, ZEROS) == AddWorkers(y, x, ["q"], ZEROS)
  {
    hide Wf, Grounded, ConnsLive, AddWorkers, SplitNames, Filled, Marked, Begun0, Ready0, AddsAs;
    AddsFacts(id, fail);
    ConnIsLive(s, x);
    UpdWf(s, x, Ready0(id, fail));
    UpdTwice(s, x, Filled(Begun0(), AddsAs(id, fail), 0), Ready0(id, fail));
    UpdTwice(s, x, Ready0(id, fail), Ready0(id, fail));
    OneName();
  }

  /** The request r of c takes s to t. */
  ghost predicate Goes(s: State, c: Connect, r: Request, t: State) {
    Wf(s) && c in s.conns && Complete(s, c, r, 0, ZEROS) == t
  }

  // A client calls, and the one worker that waits gets the call

  /** The worker once its entry is erased, and once it serves c; the client while it is served. */
  function Serving0(id: string, fail: bool, c: Connect): Conn {
    Listed0(id, fail).(link := 2, client := if fail then Some(c) else None, status := Net,
                       out := [TaskWithId("7", "q", "")])
  }

  function Served1(fail: bool): Conn {
    Fresh0().(id := "7", calls := 1, status := ClientWaitResult, link := if fail then 3 else 2)
  }

  lemma ServingFacts(id: string, fail: bool, c: Connect)
    ensures var v := Listed0(id, fail);
      && Ready(v) && v.link == 3 && !v.noid && v.nloop == 0
      && ServedWithId(v.(link := 2), c, TaskWithId("7", "q", "")) == Serving0(id, fail, c)
      && LinksGiven(v.(link := 2)) == (if fail then 2 else 1)
    ensures Called(Asking("7"), if fail then 2 else 1) == Served1(fail)
  {
    var none: seq<Reply> := [];
    assert none + [TaskWithId("7", "q", "")] == [TaskWithId("7", "q", "")];
  }

  lemma Dispatches(m: map<Connect, Conn>, list: seq<Connect>, w: Connect, c: Connect, id: string, fail: bool)
    requires w in m && c in m && w != c && m[w] == Listed0(id, fail) && m[c] == Asking("7")
    requires Wf(Hall(m, [w], list, map[]))
    ensures var s := Hall(m, [w], list, map[]);
      |s.workers| == 1 && |s.workers[0]| == 1 && s.workers[0][0] == [w] && c in s.conns && s.threads == 1
    ensures Dispatch(Hall(m, [w], list, map[]), 0, 0, 0, c, "q", ZEROS)
         == Hall(m[w := Serving0(id, fail, c)][c := Served1(fail)], [], list, map["7" := c])
  {
    hide Wf, Grounded, ConnsLive, Hall, Listed0, Serving0, Served1, Asking, EraseWorker, ResolveId, Upd;
    ServingFacts(id, fail, c);
    AskingFacts("7");
    SeeHall(m, [w], list, map[]);
    Erases(m, list, w, id, fail);
    var v := Listed0(id, fail).(link := 2);
    var n := m[w := v];
    SeeHall(n, [], list, map[]);
    SameResolved(Hall(n, [], list, map[]), c);
    UpdHall(n, [], list, map[], w, Serving0(id, fail, c));
    UpdHall(n[w := Serving0(id, fail, c)], [], list, map[], c, Served1(fail));
    FillHall(n[w := Serving0(id, fail, c)][c := Served1(fail)], [], list, map[], [], list, map["7" := c]);
    assert n[w := Serving0(id, fail, c)] == m[w := Serving0(id, fail, c)];
    OneEntry(c);
    SeeHall(n[w := Serving0(id, fail, c)][c := Served1(fail)], [], list, map[]);
  }

  lemma OneEntry(c: Connect)
    ensures var none: map<string, Connect> := map[]; none["7" := c] == map["7" := c]
  {
  }

  lemma Erases(m: map<Connect, Conn>, list: seq<Connect>, w: Connect, id: string, fail: bool)
    requires w in m && m[w] == Listed0(id, fail)
    ensures var s := Hall(m, [w], list, map[]);
      && |s.workers| == 1 && |s.workers[0]| == 1 && s.workers[0][0] == [w] && w in s.conns
      && EraseWorker(s, 0, 0, 0) == Hall(m[w := Listed0(id, fail).(link := 2)], [], list, map[])
  {
    hide Hall, Listed0, Serving0, Served1, Asking, SetAt;
    ServingFacts(id, fail, w);
    SeeHall(m, [w], list, map[]);
    assert RemoveAt([w], 0) == [];
    FillHall(m, [w], list, map[], [], list, map[]);
    SeeHall(m, [], list, map[]);
    UpdHall(m, [], list, map[], w, Listed0(id, fail).(link := 2));
  }

  lemma CallsInHall(m: map<Connect, Conn>, list: seq<Connect>, events: seq<Event>, w: Connect, c: Connect,
                    id: string, fail: bool)
    requires w in m && c in m && w != c && m[w] == Listed0(id, fail) && m[c] == Begun0()
    requires Reachable(Hall(m, [w], list, map[]), 1, events)
    ensures var n := m[w := Serving0(id, fail, c)][c := Served1(fail)];
      Reachable(Hall(n, [], list, map["7" := c]), 1, events + [Completed(c, Calls("7"), 0, ZEROS)])
  {
    hide Reachable, Wf, Complete, Hall, Begun0, Calls, Listed0, Serving0, Served1, Listens, Grounded, ConnsLive;
    StartFacts();
    SeeHall(m, [w], list, map[]);
    var n := m[w := Serving0(id, fail, c)][c := Served1(fail)];
    if Wf(Hall(m, [w], list, map[])) {
      CallGoes(Hall(m, [w], list, map[]), m, list, w, c, id, fail);
    }
    Completes(Hall(m, [w], list, map[]), events, c, Calls("7"), Hall(n, [], list, map["7" := c]));
  }

  lemma CallGoes(s: State, m: map<Connect, Conn>, list: seq<Connect>, w: Connect, c: Connect, id: string, fail: bool)
    requires w in m && c in m && w != c && m[w] == Listed0(id, fail) && m[c] == Begun0()
    requires Wf(s) && c in s.conns && s == Hall(m, [w], list, map[])
    ensures Goes(s, c, Calls("7"), Hall(m[w := Serving0(id, fail, c)][c := Served1(fail)], [], list, map["7" := c]))
  {
    hide Wf, Grounded, ConnsLive, Hall, Listed0, Asking, Begun0, Dispatch, Complete, Upd, Serving0, Served1, Calls;
    SeeHall(m, [w], list, map[]);
    CallsIs(s, c, "7");
    UpdHall(m, [w], list, map[], c, Asking("7"));
    var n := m[c := Asking("7")];
    SeeHall(n, [w], list, map[]);
    ServingFacts(id, fail, c);
    AskingFacts("7");
    ReadyFound(Hall(n, [w], list, map[]), w);
    Dispatches(n, list, w, c, id, fail);
    assert n[w := Serving0(id, fail, c)][c := Served1(fail)] == m[w := Serving0(id, fail, c)][c := Served1(fail)];
  }

  // Somebody posts the result

  const POST := BLANK.(kind := Result, id := "7")

  function Posted1(): Conn { Fresh0().(id := "7", out := [Ok]) }

  function Answered(): Conn {
    Fresh0().(id := "7", calls := 1, link := 2, out := [AnswerWithId("7", "")])
  }

  lemma PostFacts()
    ensures Filled(Begun0(), POST, 0) == Fresh0().(id := "7")
    ensures Marked(Fresh0().(id := "7"), POST) == Fresh0().(id := "7")
    ensures POST.kind == Result && !POST.broken && POST.setId == ""
    ensures var f := Fresh0().(id := "7");
      && !f.workerMode && !f.noid && f.id == "7" && f.body == "" && !f.closed && f.client.None? && f.item.None?
      && f.nloop == 0 && Served(f, Net, Ok) == Posted1()
    ensures var v := Served1(true);
      && v.link == 3 && !v.closed && Served(v.(link := 2), Net, AnswerWithId("7", "")) == Answered()
    ensures Begun0().client.None? && Begun0().item.None? && Begun0().nloop == 0
  {
    var none: seq<Reply> := [];
    assert none + [Ok] == [Ok] && none + [AnswerWithId("7", "")] == [AnswerWithId("7", "")];
  }

  lemma Delivers(m: map<Connect, Conn>, list: seq<Connect>, c: Connect)
    requires c in m && m[c] == Served1(true) && Wf(Hall(m, [], list, map["7" := c]))
    ensures WorkerResult(Hall(m, [], list, map["7" := c]), "7", Some(""))
         == Delivery(Hall(m[c := Answered()], [], list, map[]), 0)
  {
    hide Wf, Grounded, ConnsLive, Hall, Served1, Answered, Send, SetStatus, Upd;
    PostFacts();
    SeeHall(m, [], list, map["7" := c]);
    assert map["7" := c] - {"7"} == map[];
    FillHall(m, [], list, map["7" := c], [], list, map[]);
    SeeHall(m, [], list, map[]);
    var v := m[c].(link := 2);
    UpdHall(m, [], list, map[], c, v);
    SeeHall(m[c := v], [], list, map[]);
    SendThenStatus(Hall(m[c := v], [], list, map[]), c, AnswerWithId("7", ""), Net);
    UpdHall(m[c := v], [], list, map[], c, Answered());
    assert m[c := v][c := Answered()] == m[c := Answered()];
  }

  lemma PostsInHall(m: map<Connect, Conn>, list: seq<Connect>, events: seq<Event>, p: Connect, c: Connect)
    requires p in m && c in m && p != c && m[p] == Begun0() && m[c] == Served1(true)
    requires Reachable(Hall(m, [], list, map["7" := c]), 1, events)
    ensures var n := m[p := Posted1()][c := Answered()];
      Reachable(Hall(n, [], list, map[]), 1, events + [Completed(p, POST, 0, ZEROS)])
  {
    hide Reachable, Wf, Complete, Hall, Begun0, Served1, Posted1, Answered, Listens, Grounded, ConnsLive;
    StartFacts();
    PostFacts();
    SeeHall(m, [], list, map["7" := c]);
    if Wf(Hall(m, [], list, map["7" := c])) {
      PostGoes(Hall(m, [], list, map["7" := c]), m, list, p, c);
    }
    var n := m[p := Posted1()][c := Answered()];
    Completes(Hall(m, [], list, map["7" := c]), events, p, POST, Hall(n, [], list, map[]));
  }

  /** What posting a result comes to for a connection that has not done anything yet. */
  lemma PostIs(s: State, p: Connect)
    requires Wf(s) && p in s.conns && s.conns[p] == Begun0()
    ensures var y := Upd(s, p, Fresh0().(id := "7"));
      Wf(y) && p in y.conns && Goes(s, p, POST, RpcResult(y, p))
  {
    hide Wf, Grounded, ConnsLive, Filled, Marked, Begun0, RpcResult;
    PostFacts();
    ConnIsLive(s, p);
    var f := Fresh0().(id := "7");
    hide Fresh0;
    UpdWf(s, p, f);
    UpdTwice(s, p, f, f);
  }

  /** The result of p takes y to t. */
  ghost predicate Settles(y: State, p: Connect, t: State) {
    Wf(y) && p in y.conns && RpcResult(y, p) == t
  }

  lemma RpcDelivers(y: State, n: map<Connect, Conn>, list: seq<Connect>, p: Connect, c: Connect)
    requires p in n && c in n && p != c && n[p] == Fresh0().(id := "7") && n[c] == Served1(true)
    requires Wf(y) && p in y.conns && y == Hall(n, [], list, map["7" := c])
    ensures Settles(y, p, Hall(n[p := Posted1()][c := Answered()], [], list, map[]))
  {
    hide Wf, Grounded, ConnsLive, Hall, Served1, Posted1, Answered, Upd, WorkerResult, Send, SetStatus;
    PostFacts();
    var f := Fresh0().(id := "7");
    hide Fresh0;
    SeeHall(n, [], list, map["7" := c]);
    Delivers(n, list, c);
    var k := n[c := Answered()];
    SeeHall(k, [], list, map[]);
    SendThenStatus(Hall(k, [], list, map[]), p, Ok, Net);
    UpdHall(k, [], list, map[], p, Posted1());
    assert k[p := Posted1()] == n[p := Posted1()][c := Answered()];
  }

  lemma PostGoes(s: State, m: map<Connect, Conn>, list: seq<Connect>, p: Connect, c: Connect)
    requires p in m && c in m && p != c && m[p] == Begun0() && m[c] == Served1(true)
    requires Wf(s) && p in s.conns && s == Hall(m, [], list, map["7" := c])
    ensures Goes(s, p, POST, Hall(m[p := Posted1()][c := Answered()], [], list, map[]))
  {
    hide Wf, Grounded, ConnsLive, Hall, Served1, Begun0, Posted1, Answered, Upd, RpcResult, Goes, Fresh0;
    SeeHall(m, [], list, map["7" := c]);
    PostIs(s, p);
    var f := Fresh0().(id := "7");
    UpdHall(m, [], list, map["7" := c], p, f);
    RpcDelivers(Upd(s, p, f), m[p := f], list, p, c);
    assert m[p := f][p := Posted1()] == m[p := Posted1()];
  }

  // A worker leaves, and somebody else's call is failed

  lemma BeginsIn(m: map<Connect, Conn>, d: seq<Connect>, list: seq<Connect>, wait: map<string, Connect>,
                 events: seq<Event>, c: Connect)
    requires c in m && m[c] == Fresh0()
    ensures Reachable(Hall(m, d, list, wait), 1, events) ==>
      Reachable(Hall(m[c := Begun0()], d, list, wait), 1, events + [Begun(c)])
    ensures Reachable(Yard(m), 1, events) ==> Reachable(Yard(m[c := Begun0()]), 1, events + [Begun(c)])
  {
    hide Reachable, Wf, Hall, Yard, Fresh0, Begun0, Upd, Grounded, ConnsLive;
    StartFacts();
    SeeHall(m, d, list, wait);
    UpdHall(m, d, list, wait, c, Begun0());
    if Reachable(Hall(m, d, list, wait), 1, events) {
      Begins(Hall(m, d, list, wait), events, c, Fresh0(), Begun0(), Hall(m[c := Begun0()], d, list, wait));
    }
    if Reachable(Yard(m), 1, events) {
      Begins(Yard(m), events, c, Fresh0(), Begun0(), Yard(m[c := Begun0()]));
    }
  }

  predicate Five(w: Connect, c: Connect, p: Connect, v: Connect, d: Connect) {
    w != c && w != p && w != v && w != d && c != p && c != v && c != d && p != v && p != d && v != d
  }

  function Nobody(): map<Connect, Conn> { map[] }

  function AllFive(w: Connect, c: Connect, p: Connect, v: Connect, d: Connect): map<Connect, Conn> {
    map[w := Fresh0(), c := Fresh0(), p := Fresh0(), v := Fresh0(), d := Fresh0()]
  }

  lemma NobodyYet()
    ensures Reachable(Yard(Nobody()), 1, [])
  {
    assert Yard(map[]) == Start(1);
  }

  lemma FiveEnter(w: Connect, c: Connect, p: Connect, v: Connect, d: Connect) returns (events: seq<Event>)
    requires Five(w, c, p, v, d)
    ensures Reachable(Yard(AllFive(w, c, p, v, d)), 1, events)
  {
    NobodyYet();
    hide Reachable, Yard, Fresh0;
    var m := Nobody();
    events := [];
    Enters(m, events, w);
    m, events := m[w := Fresh0()], events + [Accepted(w, 0)];
    Enters(m, events, c);
    m, events := m[c := Fresh0()], events + [Accepted(c, 0)];
    Enters(m, events, p);
    m, events := m[p := Fresh0()], events + [Accepted(p, 0)];
    Enters(m, events, v);
    m, events := m[v := Fresh0()], events + [Accepted(v, 0)];
    Enters(m, events, d);
    m, events := m[d := Fresh0()], events + [Accepted(d, 0)];
    assert m == AllFive(w, c, p, v, d);
  }

  /** A connection that has not done anything yet begins and registers. */
  lemma Joins(s: State, m: map<Connect, Conn>, list: seq<Connect>, events: seq<Event>,
              x: Connect, id: string, fail: bool)
    returns (more: seq<Event>)
    requires Reachable(s, 1, events) && x in m && m[x] == Fresh0() && id != ""
    requires (s == Yard(m) && list == []) || s == Hall(m, [], list, map[])
    ensures Reachable(Hall(m[x := Listed0(id, fail)], [x], [x] + list, map[]), 1, more)
  {
    hide Reachable, Hall, Yard, Fresh0, Begun0, Listed0;
    BeginsIn(m, [], list, map[], events, x);
    var n := m[x := Begun0()];
    var u := if s == Hall(m, [], list, map[]) then Hall(n, [], list, map[]) else Yard(n);
    var t := Hall(n[x := Listed0(id, fail)], [x], [x] + list, map[]);
    Registers(u, t, n, list, map[], events + [Begun(x)], x, id, fail);
    more := events + [Begun(x)] + [Completed(x, AddsAs(id, fail), 0, ZEROS)];
    assert n[x := Listed0(id, fail)] == m[x := Listed0(id, fail)];
  }

  /** The worker that has joined last serves a call of c with the id "7". */
  lemma Serves(m: map<Connect, Conn>, list: seq<Connect>, events: seq<Event>,
               w: Connect, c: Connect, id: string, fail: bool)
    returns (more: seq<Event>)
    requires w in m && c in m && w != c && m[w] == Listed0(id, fail) && m[c] == Fresh0()
    requires Reachable(Hall(m, [w], list, map[]), 1, events)
    ensures Reachable(Hall(m[w := Serving0(id, fail, c)][c := Served1(fail)], [], list, map["7" := c]), 1, more)
  {
    hide Reachable, Hall, Fresh0, Begun0, Listed0, Serving0, Served1;
    BeginsIn(m, [w], list, map[], events, c);
    var n := m[c := Begun0()];
    CallsInHall(n, list, events + [Begun(c)], w, c, id, fail);
    more := events + [Begun(c)] + [Completed(c, Calls("7"), 0, ZEROS)];
    assert n[w := Serving0(id, fail, c)][c := Served1(fail)] == m[w := Serving0(id, fail, c)][c := Served1(fail)];
  }

  /** p posts the result for c. */
  lemma Posts(m: map<Connect, Conn>, list: seq<Connect>, events: seq<Event>, p: Connect, c: Connect)
    returns (more: seq<Event>)
    requires p in m && c in m && p != c && m[p] == Fresh0() && m[c] == Served1(true)
    requires Reachable(Hall(m, [], list, map["7" := c]), 1, events)
    ensures Reachable(Hall(m[p := Posted1()][c := Answered()], [], list, map[]), 1, more)
  {
    hide Reachable, Hall, Fresh0, Begun0, Posted1, Answered, Served1;
    BeginsIn(m, [], list, map["7" := c], events, p);
    var n := m[p := Begun0()];
    PostsInHall(n, list, events + [Begun(p)], p, c);
    more := events + [Begun(p)] + [Completed(p, POST, 0, ZEROS)];
    assert n[p := Posted1()][c := Answered()] == m[p := Posted1()][c := Answered()];
  }

  /**
   The worker w serves c under "7"; p answers instead; then v serves d under "7" again. When w leaves,
   d is told that its worker has gone, though v still works for it.
   */
  lemma StrangerIsTold(w: Connect, c: Connect, p: Connect, v: Connect, d: Connect)
    returns (t: State, events: seq<Event>)
    requires Five(w, c, p, v, d)
    ensures Reachable(t, 1, events) && Wf(t) && w in t.conns && d in t.conns && Enabled(t, Disconnected(w))
    ensures t.conns[w].client == Some(c) && "7" in t.wait && t.wait["7"] == d
    ensures var u := Disconnect(t, w); d in u.conns && u.conns[d].out == t.conns[d].out + [Unavailable]
  {
    hide Reachable, Hall, Yard, Fresh0, Listed0, Serving0, Served1, Posted1, Answered, Wf, Disconnect, Inv, Enabled;
    hide Grounded, ConnsLive;
    events := FiveEnter(w, c, p, v, d);
    var m := AllFive(w, c, p, v, d);
    events := Joins(Yard(m), m, [], events, w, "w", true);
    m := m[w := Listed0("w", true)];
    events := Serves(m, [w] + [], events, w, c, "w", true);
    m := m[w := Serving0("w", true, c)][c := Served1(true)];
    events := Posts(m, [w] + [], events, p, c);
    m := m[p := Posted1()][c := Answered()];
    events := Joins(Hall(m, [], [w] + [], map[]), m, [w] + [], events, v, "v", false);
    m := m[v := Listed0("v", false)];
    events := Serves(m, [v] + ([w] + []), events, v, d, "v", false);
    m := m[v := Serving0("v", false, d)][d := Served1(false)];
    t := Hall(m, [], [v] + ([w] + []), map["7" := d]);
    SeeHall(m, [], [v] + ([w] + []), map["7" := d]);
    ReachableInv(t, 1, events);
    assert m[w] == Serving0("w", true, c) && m[c] == Answered() && m[d] == Served1(false);
    TellsStranger(t, w, c, d);
  }

  lemma LeaverFacts(c: Connect)
    ensures var v := Serving0("w", true, c);
      v.failOnDisconnect && !v.noid && v.client == Some(c) && v.status == Net && !v.closed
    ensures Answered().id == "7" && !Served1(false).closed
  {
  }

  lemma TellsStranger(t: State, w: Connect, c: Connect, d: Connect)
    requires Inv(t) && w in t.conns && c in t.conns && d in t.conns && w in t.table && w != d
    requires t.conns[w] == Serving0("w", true, c) && t.conns[c] == Answered() && t.conns[d] == Served1(false)
    requires "7" in t.wait && t.wait["7"] == d
    ensures Wf(t) && Enabled(t, Disconnected(w)) && t.conns[w].client == Some(c)
    ensures var u := Disconnect(t, w); d in u.conns && u.conns[d].out == t.conns[d].out + [Unavailable]
  {
    hide Wf, Sane, Disconnect, Grounded, ConnsLive, Order.Orderly, Serving0, Answered, Served1;
    InvWf(t);
    LeaverFacts(c);
    assert Departures.Abandoned(t, w, d);
    Departures.WhoIsTold(t, w, d);
  }

  // A registration that breaks off

  const BROKEN := BLANK.(kind := AddWorkerMode, name := "q", broken := true)

  function Spoilt0(): Conn { Fresh0().(name := "q", workerMode := true, spoilt := true, out := [InvalidData]) }

  lemma BrokenFacts()
    ensures var f := Filled(Begun0(), BROKEN, 0); var m := Marked(f, BROKEN);
      && !f.workerMode && !f.noid && BreaksOff(m, BROKEN) && !m.closed && m.(out := m.out + [InvalidData]) == Spoilt0()
      && f.client.None? && f.item.None? && f.nloop == 0 && m.client.None? && m.item.None? && m.nloop == 0
    ensures BROKEN.kind == AddWorkerMode && BROKEN.setId == ""
    ensures var v := Spoilt0(); v.workerMode && v.status == Net && !v.started && !v.closed && v.out == [InvalidData]
  {
    var none: seq<Reply> := [];
    assert none + [InvalidData] == [InvalidData];
  }

  lemma BrokenIs(s: State, c: Connect)
    requires Wf(s) && c in s.conns && s.conns[c] == Begun0()
    ensures Goes(s, c, BROKEN, Upd(s, c, Spoilt0()))
  {
    hide Wf, Grounded, ConnsLive, Filled, Marked, Begun0, Spoilt0, BROKEN, BreaksOff, Handled;
    BrokenFacts();
    ConnIsLive(s, c);
    var f := Filled(Begun0(), BROKEN, 0);
    var m := Marked(f, BROKEN);
    UpdWf(s, c, f);
    UpdTwice(s, c, f, m);
    UpdWf(s, c, m);
    UpdTwice(s, c, m, Spoilt0());
  }

  lemma BreaksOffOnce(c: Connect) returns (events: seq<Event>)
    ensures Reachable(Yard(map[c := Spoilt0()]), 1, events)
  {
    hide Reachable, Yard, Fresh0, Begun0, Spoilt0, Wf, Complete, Grounded, ConnsLive, Listens, BROKEN, Goes, Upd;
    BrokenFacts();
    StartFacts();
    NobodyYet();
    Enters(Nobody(), [], c);
    var m := Nobody()[c := Fresh0()];
    BeginsIn(m, [], [], map[], [] + [Accepted(c, 0)], c);
    var n := m[c := Begun0()];
    events := [] + [Accepted(c, 0)] + [Begun(c)];
    SeeHall(n, [], [], map[]);
    UpdHall(n, [], [], map[], c, Spoilt0());
    var t := Yard(n[c := Spoilt0()]);
    if Wf(Yard(n)) {
      BrokenIs(Yard(n), c);
      GoesThere(Yard(n), c, BROKEN, t);
    }
    Completes(Yard(n), events, c, BROKEN, t);
    events := events + [Completed(c, BROKEN, 0, ZEROS)];
    assert n[c := Spoilt0()] == map[c := Spoilt0()];
  }

  /**
   A connection asks for worker mode with a body that cannot be scanned and is told so; it is at rest,
   and its next request throws it out.
   */
  lemma BrokenModeThrows(c: Connect) returns (t: State, events: seq<Event>)
    ensures Reachable(t, 1, events) && Wf(t) && c in t.conns && Enabled(t, Begun(c))
    ensures t.conns[c].out == [InvalidData] && t.conns[c].status == Net && !t.conns[c].closed
    ensures c in Begin(t, c).conns && Begin(t, c).conns[c].closed
  {
    hide Reachable, Yard, Spoilt0, Wf, Begin, Inv, Grounded, ConnsLive, Listens;
    BrokenFacts();
    t := Yard(map[c := Spoilt0()]);
    events := BreaksOffOnce(c);
    SeeHall(map[c := Spoilt0()], [], [], map[]);
    ReachableInv(t, 1, events);
    InvWf(t);
    assert Listens(t.conns[c]) by { NetListens(t.conns[c]); }
    ThrowsOutIff(t, 1, events, c);
  }

  lemma GoesThere(s: State, c: Connect, r: Request, t: State)
    requires Goes(s, c, r, t)
    ensures Wf(s) && c in s.conns && Complete(s, c, r, 0, ZEROS) == t
  {
  }

  lemma NetListens(v: Conn)
    requires v.status == Net
    ensures Listens(v)
  {
  }
}
