/** Two runs in which request ids go wrong, event by event. */
module Scenarios {
  import opened Connections
  import opened Deques
  import opened Names
  import opened BrokerState
  import opened Common
  import opened ClientRequests
  import opened WorkerRequests
  import opened Sessions
  import opened Invariants
  import LifeProofs
  import Leads
  import opened Runs
  import opened Guarantees
  import Collisions

  const BLANK := Request(Echo, "", "", "", "", "", 0, "", false, false, false, false, 0, false)

  function Adds(): Request { BLANK.(kind := Add, name := "q", setId := "w") }

  function Calls(id: string): Request { BLANK.(kind := Call, name := "q", id := id) }

  const ZEROS: Entropy := (_: nat) => 0

  // The worker w and the clients a and b

  function Fresh0(): Conn { NewConnection(0) }

  function Begun0(): Conn { Fresh0().(started := true) }

  function Parked(): Conn {
    Fresh0().(name := "q", connectionId := "w", link := 3, item := Some(0), status := WorkerWaitJob)
  }

  function Working(): Conn { Parked().(link := 2, status := Net, out := [TaskWithId("7", "q", "")]) }

  function Back(): Conn { Working().(name := "", started := true) }

  function Again(): Conn {
    Working().(link := 1, item := None, out := [TaskWithId("7", "q", ""), TaskWithId("8", "q", "")])
  }

  function Served7(): Conn { Fresh0().(id := "7", calls := 1, status := ClientWaitResult, link := 2) }

  function Queued(id: string): Conn {
    Fresh0().(id := id, calls := 1, status := ClientWaitResult, link := 2, name := "q")
  }

  function Taken(): Conn { Queued("8").(status := Busy) }

  /** No queue yet. */
  function Lobby(w: Connect, a: Connect, b: Connect, vw: Conn): State {
    Start(1).(conns := map[w := vw, a := Fresh0(), b := Fresh0()], table := {w, a, b})
  }

  /** One queue, with these entries, messages and workers. */
  function Room(w: Connect, a: Connect, b: Connect, vw: Conn, va: Conn, vb: Conn,
                d: seq<Connect>, ms: seq<Msg>, list: seq<Connect>, wait: map<string, Connect>, stamp: nat): State {
    Start(1).(
      conns := map[w := vw, a := va, b := vb], table := {w, a, b}, names := Names(map["q" := 1], map[]),
      workers := [[d]], clients := [[ms]], lists := [list], wait := wait, stamp := stamp)
  }

  function One(a: Connect): map<string, Connect> { map["7" := a] }

  function Both(a: Connect, b: Connect): map<string, Connect> { One(a)["8" := b] }

  function Call0(b: Connect): Msg { Msg(0, 0, "", Some(b), "", "") }

  lemma SetOne(w: Connect, a: Connect, b: Connect, x: Conn, y: Conn, z: Conn, v: Conn)
    requires w != a && w != b && a != b
    ensures map[w := x, a := y, b := z][w := v] == map[w := v, a := y, b := z]
    ensures map[w := x, a := y, b := z][a := v] == map[w := x, a := v, b := z]
    ensures map[w := x, a := y, b := z][b := v] == map[w := x, a := y, b := v]
  {
  }

  lemma UpdLobby(w: Connect, a: Connect, b: Connect, v: Conn, u: Conn)
    requires w != a && w != b && a != b
    ensures Upd(Lobby(w, a, b, v), w, u) == Lobby(w, a, b, u)
  {
    SetOne(w, a, b, v, Fresh0(), Fresh0(), u);
  }

  lemma UpdRoom(w: Connect, a: Connect, b: Connect, x: Conn, y: Conn, z: Conn,
                d: seq<Connect>, ms: seq<Msg>, list: seq<Connect>, wait: map<string, Connect>, stamp: nat, v: Conn)
    requires w != a && w != b && a != b
    ensures var s := Room(w, a, b, x, y, z, d, ms, list, wait, stamp);
      && Upd(s, w, v) == Room(w, a, b, v, y, z, d, ms, list, wait, stamp)
      && Upd(s, a, v) == Room(w, a, b, x, v, z, d, ms, list, wait, stamp)
      && Upd(s, b, v) == Room(w, a, b, x, y, v, d, ms, list, wait, stamp)
  {
    SetOne(w, a, b, x, y, z, v);
  }

  /** A room looks like this. */
  lemma Look(w: Connect, a: Connect, b: Connect, x: Conn, y: Conn, z: Conn,
             d: seq<Connect>, ms: seq<Msg>, list: seq<Connect>, wait: map<string, Connect>, stamp: nat)
    requires w != a && w != b && a != b
    ensures var s := Room(w, a, b, x, y, z, d, ms, list, wait, stamp);
      && s.conns.Keys == {w, a, b} && s.conns[w] == x && s.conns[a] == y && s.conns[b] == z
      && s.threads == 1 && s.names == Names(map["q" := 1], map[]) && s.table == {w, a, b}
      && s.workers == [[d]] && s.clients == [[ms]] && s.lists == [list] && s.wait == wait && s.stamp == stamp
  {
  }

  lemma SetDeques(w: Connect, a: Connect, b: Connect, x: Conn, y: Conn, z: Conn,
                  d: seq<Connect>, ms: seq<Msg>, list: seq<Connect>, wait: map<string, Connect>, stamp: nat,
                  e: seq<Connect>, ns: seq<Msg>, other: seq<Connect>)
    requires w != a && w != b && a != b
    ensures var s := Room(w, a, b, x, y, z, d, ms, list, wait, stamp);
      && |s.workers| == |s.clients| == 1 && |s.workers[0]| == |s.clients[0]| == 1
      && SetWorkers(s, 0, 0, e) == Room(w, a, b, x, y, z, e, ms, list, wait, stamp)
      && SetClients(s, 0, 0, ns) == Room(w, a, b, x, y, z, d, ns, list, wait, stamp)
      && |s.lists| == 1 && s.(lists := s.lists[0 := other]) == Room(w, a, b, x, y, z, d, ms, other, wait, stamp)
  {
    assert [d][0 := e] == [e] && [[d]][0 := [e]] == [[e]];
    assert [ms][0 := ns] == [ns] && [[ms]][0 := [ns]] == [[ns]];
    assert [list][0 := other] == [other];
  }

  lemma OnlyOne(w: Connect)
    ensures var none: seq<Connect> := []; InsertAt(none, 0, w) == [w]
  {
    var none: seq<Connect> := [];
    assert none[..0] + [w] + none[0..] == [w];
  }

  // One event after the other

  lemma {:induction false} RunOn(s: State, events: seq<Event>, t: State, e: Event)
    requires Run(s, events, t) && Wf(t) && Enabled(t, e)
    ensures Run(s, events + [e], Step(t, e))
    decreases |events|
  {
    hide Wf, Enabled, Step, Grounded, ConnsLive;
    if events == [] {
      assert (events + [e])[1..] == [];
      assert Run(Step(t, e), [], Step(t, e));
    } else {
      assert (events + [e])[1..] == events[1..] + [e];
      RunOn(Step(s, events[0]), events[1..], t, e);
    }
  }

  lemma Then(t: State, events: seq<Event>, e: Event, u: State)
    requires Reachable(t, 1, events) && Enabled(t, e) && (Wf(t) ==> Step(t, e) == u)
    ensures Reachable(u, 1, events + [e])
  {
    hide Wf, Enabled, Step, Inv, Grounded, ConnsLive;
    ReachableInv(t, 1, events);
    InvWf(t);
    RunOn(Start(1), events, t, e);
  }

  lemma InvWf(t: State)
    requires Inv(t)
    ensures Wf(t)
  {
    hide Order.Orderly;
  }

  lemma AllHere(w: Connect, a: Connect, b: Connect) returns (events: seq<Event>)
    requires w != a && w != b && a != b
    ensures Reachable(Lobby(w, a, b, Fresh0()), 1, events)
  {
    var s0 := Start(1);
    assert Reachable(s0, 1, []);
    var s1, s2 := Accept(s0, w, 0), Accept(Accept(s0, w, 0), a, 0);
    Then(s0, [], Accepted(w, 0), s1);
    Then(s1, [] + [Accepted(w, 0)], Accepted(a, 0), s2);
    var s3 := Accept(s2, b, 0);
    Then(s2, [] + [Accepted(w, 0)] + [Accepted(a, 0)], Accepted(b, 0), s3);
    events := [] + [Accepted(w, 0)] + [Accepted(a, 0)] + [Accepted(b, 0)];
    assert s3.conns == Lobby(w, a, b, Fresh0()).conns;
    assert s3.table == Lobby(w, a, b, Fresh0()).table;
    assert s3 == Lobby(w, a, b, Fresh0());
  }

  lemma BeginIs(s: State, c: Connect, u: Conn)
    requires Wf(s) && c in s.conns && s.conns[c].status == Net && !s.conns[c].workerMode && s.conns[c].client.None?
    requires u == Sessions.Fresh(s.conns[c]).(failOnDisconnect := false, noid := false)
    ensures Begin(s, c) == Upd(s, c, u)
  {
    hide Wf, Grounded, ConnsLive;
  }

  // The worker registers

  lemma NoQueue(s: State)
    requires Shape(s) && s.names == NO_NAMES
    ensures FoundQueue(s, "q") == None
  {
    assert LongestPrefix(map[], "q", 1) == LongestPrefix(map[], "q", 0);
  }

  lemma OneQueue(s: State)
    requires Shape(s) && s.names == Names(map["q" := 1], map[])
    ensures FoundQueue(s, "q") == Some(0)
  {
  }

  lemma OneName()
    ensures SplitNames("q", 0, 0) == ["q"] && StripSlash("q") == "q"
  {
    assert SplitNames("q", 0, 1) == ["q"[0..]];
  }

  lemma OneAddWorker(s: State, w: Connect)
    requires Wf(s) && w in s.conns
    ensures AddWorkers(s, w, ["q"], ZEROS) == AddWorker(s, w, "q", ZEROS).s
  {
    hide Wf, AddWorker, Grounded, ConnsLive;
    var r := AddWorker(s, w, "q", ZEROS);
    assert ["q"][1..] == [] && AddWorkers(r.s, w, [], ZEROS) == r.s;
  }

  lemma QueueOpens(w: Connect, a: Connect, b: Connect, v: Conn)
    requires w != a && w != b && a != b
    ensures CreateQueue(Lobby(w, a, b, v), "q") == Room(w, a, b, v, Fresh0(), Fresh0(), [], [], [], map[], 0)
  {
    assert StarAt("q"[1..]) == 0 && StarAt("q") == 1;
    assert Register(NO_NAMES, "q", 1) == Names(map["q" := 1], map[]);
    var t := CreateQueue(Lobby(w, a, b, v), "q");
    assert t.workers[0] == [[]] && t.clients[0] == [[]];
    assert t.workers == [[[]]] && t.clients == [[[]]] && t.lists == [[]];
  }

  /** A worker with an id opens the queue. */
  lemma FirstPrepares(w: Connect, a: Connect, b: Connect, v: Conn)
    requires w != a && w != b && a != b && Wf(Lobby(w, a, b, v))
    requires v.connectionId == "w" && v.item.None? && !v.workerMode
    ensures OpenedQueue(Lobby(w, a, b, v), "q") == 0
    ensures Prepare(Lobby(w, a, b, v), w, "q", ZEROS) == Room(w, a, b, v, Fresh0(), Fresh0(), [], [], [], map[], 0)
  {
    var s := Lobby(w, a, b, v);
    NoQueue(s);
    QueueOpens(w, a, b, v);
    OpenQueueWf(s, "q");
    hide Wf, Fresh0, CreateQueue, GeneratedId, FoundQueue, Grounded, ConnsLive;
    assert OpenQueue(s, "q") == Room(w, a, b, v, Fresh0(), Fresh0(), [], [], [], map[], 0);
  }

  /** With no messages there is nothing to find. */
  lemma NothingFound(s: State, w: Connect)
    requires Wf(s) && s.threads == 1 && |s.clients| == 1 && w in s.conns && s.clients[0][0] == []
    ensures FindMessage(s, 0, 0, w, -1, ZEROS) == NoMessage(s)
  {
    hide Grounded;
    assert ScanMessages(s, 0, 0, w, 0, ZEROS) == NoMessage(s);
    assert FindMessage(s, 0, 0, w, 1, ZEROS) == NoMessage(s);
    assert FindMessage(s, 0, 0, w, 0, ZEROS) == NoMessage(s);
    hide ScanMessages;
  }

  lemma FirstParks(w: Connect, a: Connect, b: Connect, v: Conn)
    requires w != a && w != b && a != b
    requires v == Fresh0().(name := "q", connectionId := "w")
    requires Wf(Room(w, a, b, v, Fresh0(), Fresh0(), [], [], [], map[], 0))
    ensures Serve(Room(w, a, b, v, Fresh0(), Fresh0(), [], [], [], map[], 0), 0, w, "q", ZEROS)
         == Added(Room(w, a, b, Parked(), Fresh0(), Fresh0(), [w], [], [w], map[], 0), false)
  {
    hide Wf, Grounded, ConnsLive, FindMessage, Enlist, Fresh0, Parked, Room;
    var d := Room(w, a, b, v, Fresh0(), Fresh0(), [], [], [], map[], 0);
    Look(w, a, b, v, Fresh0(), Fresh0(), [], [], [], map[], 0);
    NothingFound(d, w);
    FreshFacts();
    ParkWf(d, 0, w);
    FirstIn(w, a, b, v);
    hide Park;
    FirstListed(w, a, b, v.(link := 2, status := WorkerWaitJob));
  }

  lemma FreshFacts()
    ensures var v := Fresh0();
      && v.nloop == 0 && v.link == 1 && v.status == Net && v.item.None? && !v.workerMode && !v.noid && v.subName == ""
      && v.client.None? && !v.closed && !v.failOnDisconnect && v.requiredWorker == "" && v.connectionId == ""
  {
  }

  lemma FirstIn(w: Connect, a: Connect, b: Connect, v: Conn)
    requires w != a && w != b && a != b && v.nloop == 0 && v.link == 1
    requires Wf(Room(w, a, b, v, Fresh0(), Fresh0(), [], [], [], map[], 0))
    ensures Park(Room(w, a, b, v, Fresh0(), Fresh0(), [], [], [], map[], 0), 0, w)
         == Room(w, a, b, v.(link := 2, status := WorkerWaitJob), Fresh0(), Fresh0(), [w], [], [], map[], 0)
  {
    hide Wf, Grounded, ConnsLive, Fresh0, Room, InsertAt;
    var d := Room(w, a, b, v, Fresh0(), Fresh0(), [], [], [], map[], 0);
    Look(w, a, b, v, Fresh0(), Fresh0(), [], [], [], map[], 0);
    OnlyOne(w);
    assert Sweep(d, 0, 0, w, 0) == d;
    SetDeques(w, a, b, v, Fresh0(), Fresh0(), [], [], [], map[], 0, [w], [], []);
    var u := v.(link := 2);
    UpdRoom(w, a, b, v, Fresh0(), Fresh0(), [w], [], [], map[], 0, u);
    Look(w, a, b, v, Fresh0(), Fresh0(), [w], [], [], map[], 0);
    Look(w, a, b, u, Fresh0(), Fresh0(), [w], [], [], map[], 0);
    UpdRoom(w, a, b, u, Fresh0(), Fresh0(), [w], [], [], map[], 0, u.(status := WorkerWaitJob));
    hide Sweep;
  }

  lemma FirstListed(w: Connect, a: Connect, b: Connect, e: Conn)
    requires w != a && w != b && a != b
    requires e == Fresh0().(name := "q", connectionId := "w", link := 2, status := WorkerWaitJob)
    ensures 0 < |Room(w, a, b, e, Fresh0(), Fresh0(), [w], [], [], map[], 0).lists|
    ensures w in Room(w, a, b, e, Fresh0(), Fresh0(), [w], [], [], map[], 0).conns
    ensures Enlist(Room(w, a, b, e, Fresh0(), Fresh0(), [w], [], [], map[], 0), 0, w, "q")
         == Room(w, a, b, Parked(), Fresh0(), Fresh0(), [w], [], [w], map[], 0)
  {
    FreshFacts();
    hide Room, Fresh0;
    var p := Room(w, a, b, e, Fresh0(), Fresh0(), [w], [], [], map[], 0);
    Look(w, a, b, e, Fresh0(), Fresh0(), [w], [], [], map[], 0);
    var u := e.(link := 3);
    UpdRoom(w, a, b, e, Fresh0(), Fresh0(), [w], [], [], map[], 0, u);
    Look(w, a, b, u, Fresh0(), Fresh0(), [w], [], [], map[], 0);
    UpdRoom(w, a, b, u, Fresh0(), Fresh0(), [w], [], [], map[], 0, u.(item := Some(0)));
    SetDeques(w, a, b, u.(item := Some(0)), Fresh0(), Fresh0(), [w], [], [], map[], 0, [w], [], [w]);
    assert u.(item := Some(0)) == Parked();
    Look(w, a, b, Parked(), Fresh0(), Fresh0(), [w], [], [], map[], 0);
    assert [w] + [] == [w];
    hide Parked;
  }

  lemma FirstAdds(w: Connect, a: Connect, b: Connect)
    requires w != a && w != b && a != b && Wf(Lobby(w, a, b, Begun0()))
    ensures Complete(Lobby(w, a, b, Begun0()), w, Adds(), 0, ZEROS)
         == Room(w, a, b, Parked(), Fresh0(), Fresh0(), [w], [], [w], map[], 0)
  {
    hide Wf, Grounded, ConnsLive, Upd, Serve, Prepare, OpenedQueue, Room, Lobby, SplitNames, AddWorkers, FoundQueue;
    hide StripSlash, Fresh0, Begun0, Filled, Marked, Complete, Adds;
    var s, f := Lobby(w, a, b, Begun0()), Fresh0().(name := "q", connectionId := "w");
    LobbyIs(w, a, b, Begun0());
    LobbyIs(w, a, b, f);
    FirstFilled();
    FreshFacts();
    UpdLobby(w, a, b, Begun0(), f);
    UpdLobby(w, a, b, f, f);
    UpdWf(s, w, f) by { ConnIsLive(s, w); }
    var x := Lobby(w, a, b, f);
    OneName();
    OneAddWorker(x, w);
    FirstPrepares(w, a, b, f);
    var d := Room(w, a, b, f, Fresh0(), Fresh0(), [], [], [], map[], 0);
    FirstParks(w, a, b, f);
    assert AddWorker(x, w, "q", ZEROS) == Serve(d, 0, w, "q", ZEROS);
    AddsIs(s, w, x, f);
  }

  lemma LobbyIs(w: Connect, a: Connect, b: Connect, v: Conn)
    requires w != a && w != b && a != b
    ensures var s := Lobby(w, a, b, v);
      && s.conns.Keys == {w, a, b} && s.conns[w] == v && s.conns[a] == Fresh0() && s.conns[b] == Fresh0()
      && s.threads == 1 && |s.lists| == 0 && s.table == {w, a, b} && s.names == NO_NAMES && s.workers == []
  {
  }

  lemma FirstFilled()
    ensures var f := Fresh0().(name := "q", connectionId := "w");
      Filled(Begun0(), Adds(), 0) == f && Marked(f, Adds()) == f
  {
  }

  /** What a request to register comes to for a connection at rest. */
  lemma AddsIs(s: State, w: Connect, x: State, f: Conn)
    requires Wf(s) && w in s.conns && Wf(x) && w in x.conns && Upd(s, w, f) == x && Upd(x, w, f) == x && x.conns[w] == f
    requires f == Filled(s.conns[w], Adds(), 0) && Marked(f, Adds()) == f && f.name == "q" && !f.workerMode && !f.noid
    requires SplitNames("q", 0, 0) == ["q"]
    ensures Complete(s, w, Adds(), 0, ZEROS) == AddWorkers(x, w, ["q"], ZEROS)
  {
    hide Wf, AddWorkers, SplitNames, Filled, Marked, Upd, Grounded, ConnsLive;
    assert Adds().kind == Add;
  }

  // The clients call

  function Asking(id: string): Conn { Fresh0().(id := id, calls := 1) }

  lemma AskingFacts(id: string)
    ensures var f := Filled(Begun0(), Calls(id), 0);
      && f == Fresh0().(id := id) && Marked(f, Calls(id)) == f && f.(calls := f.calls + 1) == Asking(id)
      && !f.workerMode && !f.noid
    ensures var v := Asking(id);
      && v.nloop == 0 && v.requiredWorker == "" && !v.noResponse && !v.ifPresent && v.id == id && v.link == 1
      && v.body == "" && v.priority == 0 && !v.closed
  {
  }

  /** What a call comes to for a connection at rest. */
  lemma CallsIs(s: State, c: Connect, id: string)
    requires Wf(s) && c in s.conns && s.conns[c] == Begun0() && s.names == Names(map["q" := 1], map[])
    requires 0 < |s.lists|
    ensures Wf(Upd(s, c, Asking(id))) && c in Upd(s, c, Asking(id)).conns && 0 < |Upd(s, c, Asking(id)).lists|
    ensures Complete(s, c, Calls(id), 0, ZEROS) == Seek(Upd(s, c, Asking(id)), 0, c, "q", ZEROS)
  {
    hide Wf, Grounded, ConnsLive, Seek, Filled, Marked, Begun0, Fresh0, Asking, FoundQueue;
    AskingFacts(id);
    ConnIsLive(s, c);
    FreshLive(s, c, id);
    var f := Filled(Begun0(), Calls(id), 0);
    UpdWf(s, c, f);
    var x := Upd(s, c, f);
    UpdTwice(s, c, f, f);
    UpdTwice(s, c, f, Asking(id));
    UpdWf(s, c, Asking(id));
    var y := Upd(s, c, Asking(id));
    assert CallMade(x, c) == y;
    Leads.ShapeOf(y);
    OneQueue(y);
    hide Upd;
    assert ClientRequest(x, c, "q", ZEROS) == Seek(y, 0, c, "q", ZEROS);
  }

  lemma FreshLive(s: State, c: Connect, id: string)
    requires Wf(s) && c in s.conns && s.conns[c] == Begun0()
    ensures ConnLive(Fresh0().(id := id), s.conns.Keys, |s.lists|, s.threads)
    ensures ConnLive(Asking(id), s.conns.Keys, |s.lists|, s.threads)
  {
    ConnIsLive(s, c);
    hide Wf, Grounded, ConnsLive;
  }

  lemma ReadyFound(s: State, w: Connect)
    requires Wf(s) && s.threads == 1 && |s.workers| == 1 && s.workers[0][0] == [w] && w in s.conns && Ready(s.conns[w])
    ensures FindWorker(s, 0, 0, "", -1) == FoundWorker(s, 0, 0)
  {
    hide Grounded;
    assert ScanWorkers(s, 0, 0, "", 0) == FoundWorker(s, 0, 0);
    hide ScanWorkers;
  }

  lemma NobodyFound(s: State)
    requires Wf(s) && s.threads == 1 && |s.workers| == 1 && s.workers[0][0] == []
    ensures FindWorker(s, 0, 0, "", -1) == NoWorker(s)
  {
    hide Grounded;
    assert ScanWorkers(s, 0, 0, "", 0) == NoWorker(s);
    assert FindWorker(s, 0, 0, "", 1) == NoWorker(s);
    assert FindWorker(s, 0, 0, "", 0) == NoWorker(s);
    hide ScanWorkers;
  }

  /** The ready worker gets the call of a. */
  lemma FirstDispatched(w: Connect, a: Connect, b: Connect)
    requires w != a && w != b && a != b
    requires Wf(Room(w, a, b, Parked(), Asking("7"), Fresh0(), [w], [], [w], map[], 0))
    ensures Dispatch(Room(w, a, b, Parked(), Asking("7"), Fresh0(), [w], [], [w], map[], 0), 0, 0, 0, a, "q", ZEROS)
         == Room(w, a, b, Working(), Served7(), Fresh0(), [], [], [w], One(a), 0)
  {
    hide Wf, Grounded, ConnsLive, Room, Parked, Asking, Fresh0, Working, Served7, SetAt, RemoveAt;
    var s := Room(w, a, b, Parked(), Asking("7"), Fresh0(), [w], [], [w], map[], 0);
    var p := Parked().(link := 2);
    ParkedFacts(a);
    AskingFacts("7");
    Look(w, a, b, Parked(), Asking("7"), Fresh0(), [w], [], [w], map[], 0);
    FirstErased(w, a, b);
    var t := Room(w, a, b, p, Asking("7"), Fresh0(), [], [], [w], map[], 0);
    Look(w, a, b, p, Asking("7"), Fresh0(), [], [], [w], map[], 0);
    hide EraseWorker, ResolveId;
    SameResolved(t, a);
    UpdRoom(w, a, b, p, Asking("7"), Fresh0(), [], [], [w], map[], 0, Working());
    UpdRoom(w, a, b, Working(), Asking("7"), Fresh0(), [], [], [w], map[], 0, Served7());
    hide Upd;
    WaitRoom(w, a, b, Working(), Served7(), Fresh0(), [], [], [w], map[], 0, One(a));
  }

  /** An id of one's own is kept. */
  lemma SameResolved(t: State, c: Connect)
    requires c in t.conns && t.conns[c].id != ""
    ensures ResolveId(t, c, ZEROS) == t && ResolvedId(t, c, ZEROS) == t.conns[c].id
  {
    assert t.conns[c := t.conns[c]] == t.conns;
  }

  lemma WaitRoom(w: Connect, a: Connect, b: Connect, x: Conn, y: Conn, z: Conn,
                 d: seq<Connect>, ms: seq<Msg>, list: seq<Connect>, wait: map<string, Connect>, stamp: nat,
                 more: map<string, Connect>)
    ensures Room(w, a, b, x, y, z, d, ms, list, wait, stamp).(wait := more)
         == Room(w, a, b, x, y, z, d, ms, list, more, stamp)
  {
  }

  lemma FirstErased(w: Connect, a: Connect, b: Connect)
    requires w != a && w != b && a != b
    ensures var s := Room(w, a, b, Parked(), Asking("7"), Fresh0(), [w], [], [w], map[], 0);
      && 0 < |s.workers| && 0 < |s.workers[0]| && 0 < |s.workers[0][0]| && s.workers[0][0][0] == w && w in s.conns
      && EraseWorker(s, 0, 0, 0)
      == Room(w, a, b, Parked().(link := 2), Asking("7"), Fresh0(), [], [], [w], map[], 0)
  {
    hide Room, Asking, Fresh0, Parked, Upd, SetAt;
    ParkedFacts(w);
    Look(w, a, b, Parked(), Asking("7"), Fresh0(), [w], [], [w], map[], 0);
    assert RemoveAt([w], 0) == [];
    SetDeques(w, a, b, Parked(), Asking("7"), Fresh0(), [w], [], [w], map[], 0, [], [], []);
    Look(w, a, b, Parked(), Asking("7"), Fresh0(), [], [], [w], map[], 0);
    UpdRoom(w, a, b, Parked(), Asking("7"), Fresh0(), [], [], [w], map[], 0, Parked().(link := 2));
  }

  lemma ParkedFacts(c: Connect)
    ensures var v := Parked();
      && Ready(v) && v.link == 3 && !v.noid && !v.failOnDisconnect && v.nloop == 0
      && ServedWithId(v.(link := 2), c, TaskWithId("7", "q", "")) == Working() && LinksGiven(v.(link := 2)) == 1
    ensures Called(Asking("7"), 1) == Served7()
  {
  }

  lemma FirstCalls(w: Connect, a: Connect, b: Connect)
    requires w != a && w != b && a != b && Wf(Room(w, a, b, Parked(), Begun0(), Fresh0(), [w], [], [w], map[], 0))
    ensures Complete(Room(w, a, b, Parked(), Begun0(), Fresh0(), [w], [], [w], map[], 0), a, Calls("7"), 0, ZEROS)
         == Room(w, a, b, Working(), Served7(), Fresh0(), [], [], [w], One(a), 0)
  {
    hide Wf, Grounded, ConnsLive, Room, Parked, Asking, Fresh0, Working, Served7, Begun0, Dispatch;
    var s := Room(w, a, b, Parked(), Begun0(), Fresh0(), [w], [], [w], map[], 0);
    Look(w, a, b, Parked(), Begun0(), Fresh0(), [w], [], [w], map[], 0);
    UpdRoom(w, a, b, Parked(), Begun0(), Fresh0(), [w], [], [w], map[], 0, Asking("7"));
    CallsIs(s, a, "7");
    var u := Room(w, a, b, Parked(), Asking("7"), Fresh0(), [w], [], [w], map[], 0);
    Look(w, a, b, Parked(), Asking("7"), Fresh0(), [w], [], [w], map[], 0);
    ParkedFacts(w);
    AskingFacts("7");
    ReadyFound(u, w);
    FirstDispatched(w, a, b);
  }

  /** Nobody is ready: the call of b waits. */
  lemma SecondQueued(w: Connect, a: Connect, b: Connect, id: string)
    requires w != a && w != b && a != b
    requires Wf(Room(w, a, b, Working(), Served7(), Asking(id), [], [], [w], One(a), 0))
    ensures Enqueue(Room(w, a, b, Working(), Served7(), Asking(id), [], [], [w], One(a), 0), 0, b, "q")
         == Room(w, a, b, Working(), Served7(), Queued(id), [], [Call0(b)], [w], One(a), 1)
  {
    hide One, Both, Wf, Grounded, ConnsLive, Room, Asking, Working, Served7, Queued, InsertAt;
    var s := Room(w, a, b, Working(), Served7(), Asking(id), [], [], [w], One(a), 0);
    AskingFacts(id);
    QueuedFacts(id);
    Look(w, a, b, Working(), Served7(), Asking(id), [], [], [w], One(a), 0);
    UpdRoom(w, a, b, Working(), Served7(), Asking(id), [], [], [w], One(a), 0, Queued(id));
    Look(w, a, b, Working(), Served7(), Queued(id), [], [], [w], One(a), 0);
    SetDeques(w, a, b, Working(), Served7(), Queued(id), [], [], [w], One(a), 0, [], [Call0(b)], []);
    OneMessage(Call0(b));
    hide Upd, Queued, SetClients;
    StampRoom(w, a, b, Working(), Served7(), Queued(id), [], [Call0(b)], [w], One(a), 0, 1);
  }

  lemma QueuedFacts(id: string)
    ensures Called(Asking(id), 1).(requiredWorker := "", name := "q") == Queued(id)
  {
  }

  lemma OneMessage(m: Msg)
    ensures var none: seq<Msg> := []; Slot(none, 0, 0) == 0 && InsertAt(none, 0, m) == [m]
  {
    var none: seq<Msg> := [];
    assert none[..0] + [m] + none[0..] == [m];
  }

  lemma StampRoom(w: Connect, a: Connect, b: Connect, x: Conn, y: Conn, z: Conn,
                  d: seq<Connect>, ms: seq<Msg>, list: seq<Connect>, wait: map<string, Connect>, stamp: nat, later: nat)
    ensures Room(w, a, b, x, y, z, d, ms, list, wait, stamp).(stamp := later)
         == Room(w, a, b, x, y, z, d, ms, list, wait, later)
  {
  }

  lemma SecondCalls(w: Connect, a: Connect, b: Connect, id: string)
    requires w != a && w != b && a != b
    requires Wf(Room(w, a, b, Working(), Served7(), Begun0(), [], [], [w], One(a), 0))
    ensures Complete(Room(w, a, b, Working(), Served7(), Begun0(), [], [], [w], One(a), 0), b, Calls(id), 0, ZEROS)
         == Room(w, a, b, Working(), Served7(), Queued(id), [], [Call0(b)], [w], One(a), 1)
  {
    hide One, Both, Wf, Grounded, ConnsLive, Room, Asking, Working, Served7, Queued, Begun0, Enqueue;
    var s := Room(w, a, b, Working(), Served7(), Begun0(), [], [], [w], One(a), 0);
    Look(w, a, b, Working(), Served7(), Begun0(), [], [], [w], One(a), 0);
    UpdRoom(w, a, b, Working(), Served7(), Begun0(), [], [], [w], One(a), 0, Asking(id));
    CallsIs(s, b, id);
    var u := Room(w, a, b, Working(), Served7(), Asking(id), [], [], [w], One(a), 0);
    Look(w, a, b, Working(), Served7(), Asking(id), [], [], [w], One(a), 0);
    AskingFacts(id);
    NobodyFound(u);
    SecondQueued(w, a, b, id);
  }

  // The worker comes back and takes the call of b

  function Idling(): Conn { Working().(link := 1, item := None) }

  lemma WorkingFacts()
    ensures Sessions.Fresh(Working()).(failOnDisconnect := false, noid := false) == Back()
    ensures Filled(Back(), Adds(), 0) == Working() && Marked(Working(), Adds()) == Working()
    ensures var v := Working();
      && v.name == "q" && !v.workerMode && !v.noid && v.link == 2 && v.item == Some(0) && v.nloop == 0
      && v.connectionId == "w" && v.subName == "" && v.status == Net && v.client.None?
  {
  }

  lemma IdlingFacts(b: Connect)
    ensures ServedWithId(Idling(), b, TaskWithId("8", "q", "")) == Again() && LinksGiven(Idling()) == 1
    ensures var v := Idling(); v.item.None? && v.nloop == 0 && !v.noid && v.connectionId == "w"
    ensures var v := Again(); v.item.None? && !v.workerMode && !v.noid && v.status == Net
  {
    var seven, eight := TaskWithId("7", "q", ""), TaskWithId("8", "q", "");
    assert [seven] + [eight] == [seven, eight];
  }

  lemma EightFacts()
    ensures var u := Queued("8");
      && u.id == "8" && u.name == "q" && u.body == "" && u.link == 2 && !u.closed && u.requiredWorker == ""
      && u.status == ClientWaitResult && Picked(u.(link := 1), 1) == Taken()
  {
  }

  /** The queue exists, and the worker leaves its old list. */
  lemma SecondPrepares(w: Connect, a: Connect, b: Connect)
    requires w != a && w != b && a != b
    requires Wf(Room(w, a, b, Working(), Served7(), Queued("8"), [], [Call0(b)], [w], One(a), 1))
    ensures OpenedQueue(Room(w, a, b, Working(), Served7(), Queued("8"), [], [Call0(b)], [w], One(a), 1), "q") == 0
    ensures Prepare(Room(w, a, b, Working(), Served7(), Queued("8"), [], [Call0(b)], [w], One(a), 1), w, "q", ZEROS)
         == Room(w, a, b, Idling(), Served7(), Queued("8"), [], [Call0(b)], [], One(a), 1)
  {
    hide One, Both, Wf, Grounded, ConnsLive, Room, Working, Served7, Queued, Idling, FoundQueue;
    WorkingFacts();
    var s := Room(w, a, b, Working(), Served7(), Queued("8"), [], [Call0(b)], [w], One(a), 1);
    Look(w, a, b, Working(), Served7(), Queued("8"), [], [Call0(b)], [w], One(a), 1);
    Leads.ShapeOf(s);
    OneQueue(s);
    var i := Working().(item := None);
    UpdRoom(w, a, b, Working(), Served7(), Queued("8"), [], [Call0(b)], [w], One(a), 1, i);
    SetDeques(w, a, b, i, Served7(), Queued("8"), [], [Call0(b)], [w], One(a), 1, [], [], []);
    AloneInList(w);
    Look(w, a, b, i, Served7(), Queued("8"), [], [Call0(b)], [], One(a), 1);
    UpdRoom(w, a, b, i, Served7(), Queued("8"), [], [Call0(b)], [], One(a), 1, i.(link := 1));
    assert i.(link := 1) == Idling() by { IdlingIs(); }
    hide Without, Upd;
    assert PopItem(s, w) == Room(w, a, b, Idling(), Served7(), Queued("8"), [], [Call0(b)], [], One(a), 1);
  }

  lemma IdlingIs()
    ensures Working().(item := None).(link := 1) == Idling()
  {
  }

  lemma AloneInList(w: Connect)
    ensures Without([w], w) == []
  {
    assert [w][1..] == [];
  }

  lemma SecondFound(w: Connect, a: Connect, b: Connect)
    requires w != a && w != b && a != b
    requires Wf(Room(w, a, b, Idling(), Served7(), Queued("8"), [], [Call0(b)], [], One(a), 1))
    ensures var d := Room(w, a, b, Idling(), Served7(), Queued("8"), [], [Call0(b)], [], One(a), 1);
      0 < |d.clients| && w in d.conns && FindMessage(d, 0, 0, w, -1, ZEROS) == FoundMessage(d, 0, 0)
  {
    hide Both, Grounded, ConnsLive, Room, Served7, Queued, Idling;
    IdlingFacts(b);
    EightFacts();
    var d := Room(w, a, b, Idling(), Served7(), Queued("8"), [], [Call0(b)], [], One(a), 1);
    Look(w, a, b, Idling(), Served7(), Queued("8"), [], [Call0(b)], [], One(a), 1);
    SameResolved(d, b);
    hide ResolveId, ResolvedId;
    assert Takeable(d, Call0(b), w, ZEROS);
    assert ScanMessages(d, 0, 0, w, 0, ZEROS) == FoundMessage(d, 0, 0);
    hide ScanMessages;
  }

  lemma SecondErased(w: Connect, a: Connect, b: Connect)
    requires w != a && w != b && a != b
    ensures var d := Room(w, a, b, Idling(), Served7(), Queued("8"), [], [Call0(b)], [], One(a), 1);
      && 0 < |d.clients| && 0 < |d.clients[0]| && 0 < |d.clients[0][0]|
      && d.clients[0][0][0] == Call0(b) && b in d.conns
      && EraseMessage(d, 0, 0, 0)
      == Room(w, a, b, Idling(), Served7(), Queued("8").(link := 1), [], [], [], One(a), 1)
  {
    hide One, Both, Room, Served7, Queued, Idling;
    EightFacts();
    Look(w, a, b, Idling(), Served7(), Queued("8"), [], [Call0(b)], [], One(a), 1);
    SetDeques(w, a, b, Idling(), Served7(), Queued("8"), [], [Call0(b)], [], One(a), 1, [], [], []);
    assert RemoveAt([Call0(b)], 0) == [];
    Look(w, a, b, Idling(), Served7(), Queued("8"), [], [], [], One(a), 1);
    UpdRoom(w, a, b, Idling(), Served7(), Queued("8"), [], [], [], One(a), 1, Queued("8").(link := 1));
  }

  lemma SecondTakes(w: Connect, a: Connect, b: Connect)
    requires w != a && w != b && a != b
    requires Wf(Room(w, a, b, Idling(), Served7(), Queued("8"), [], [Call0(b)], [], One(a), 1))
    ensures var d := Room(w, a, b, Idling(), Served7(), Queued("8"), [], [Call0(b)], [], One(a), 1);
      && 0 < |d.clients| && 0 < |d.clients[0]| && 0 < |d.clients[0][0]| && w in d.conns
      && Take(d, 0, 0, 0, w)
      == Room(w, a, b, Again(), Served7(), Taken(), [], [], [], Both(a, b), 1)
  {
    hide One, Wf, Grounded, ConnsLive, Room, Served7, Queued, Idling, Taken, Again, Picked, ServedWithId, LinksGiven;
    hide Upd, EraseMessage;
    IdlingFacts(b);
    EightFacts();
    var d := Room(w, a, b, Idling(), Served7(), Queued("8"), [], [Call0(b)], [], One(a), 1);
    Look(w, a, b, Idling(), Served7(), Queued("8"), [], [Call0(b)], [], One(a), 1);
    var q1 := Queued("8").(link := 1);
    SecondErased(w, a, b);
    Look(w, a, b, Idling(), Served7(), q1, [], [], [], One(a), 1);
    UpdRoom(w, a, b, Idling(), Served7(), q1, [], [], [], One(a), 1, Again());
    UpdRoom(w, a, b, Again(), Served7(), q1, [], [], [], One(a), 1, Taken());
    Look(w, a, b, Again(), Served7(), Taken(), [], [], [], One(a), 1);
    WaitRoom(w, a, b, Again(), Served7(), Taken(), [], [], [], One(a), 1, Both(a, b));
  }

  lemma SecondAdds(w: Connect, a: Connect, b: Connect)
    requires w != a && w != b && a != b
    requires Wf(Room(w, a, b, Back(), Served7(), Queued("8"), [], [Call0(b)], [w], One(a), 1))
    ensures Complete(Room(w, a, b, Back(), Served7(), Queued("8"), [], [Call0(b)], [w], One(a), 1), w, Adds(), 0, ZEROS)
         == Room(w, a, b, Again(), Served7(), Taken(), [], [], [], Both(a, b), 1)
  {
    hide One, Both, Wf, Grounded, ConnsLive, Room, Served7, Queued, Idling, Taken, Again, Working, Back, Filled, Marked;
    hide AddWorkers, SplitNames, Prepare, OpenedQueue, FindMessage, Take;
    WorkingFacts();
    var s := Room(w, a, b, Back(), Served7(), Queued("8"), [], [Call0(b)], [w], One(a), 1);
    Look(w, a, b, Back(), Served7(), Queued("8"), [], [Call0(b)], [w], One(a), 1);
    UpdRoom(w, a, b, Back(), Served7(), Queued("8"), [], [Call0(b)], [w], One(a), 1, Working());
    WorkingLive(s, w);
    UpdWf(s, w, Working());
    var x := Room(w, a, b, Working(), Served7(), Queued("8"), [], [Call0(b)], [w], One(a), 1);
    Look(w, a, b, Working(), Served7(), Queued("8"), [], [Call0(b)], [w], One(a), 1);
    UpdRoom(w, a, b, Working(), Served7(), Queued("8"), [], [Call0(b)], [w], One(a), 1, Working());
    OneName();
    OneAddWorker(x, w);
    AddsIs(s, w, x, Working());
    SecondServes(w, a, b);
  }

  lemma WorkingLive(s: State, w: Connect)
    requires Wf(s) && w in s.conns && s.conns[w] == Back()
    ensures ConnLive(Working(), s.conns.Keys, |s.lists|, s.threads)
  {
    ConnIsLive(s, w);
    hide Wf, Grounded, ConnsLive;
  }

  lemma SecondServes(w: Connect, a: Connect, b: Connect)
    requires w != a && w != b && a != b
    requires Wf(Room(w, a, b, Working(), Served7(), Queued("8"), [], [Call0(b)], [w], One(a), 1))
    requires w in Room(w, a, b, Working(), Served7(), Queued("8"), [], [Call0(b)], [w], One(a), 1).conns
    ensures AddWorker(Room(w, a, b, Working(), Served7(), Queued("8"), [], [Call0(b)], [w], One(a), 1), w, "q", ZEROS)
         == Added(Room(w, a, b, Again(), Served7(), Taken(), [], [], [], Both(a, b), 1), true)
  {
    hide One, Both, Wf, Grounded, ConnsLive, Room, Served7, Queued, Idling, Taken, Again, Working, Prepare;
    hide OpenedQueue, FindMessage, Take;
    WorkingFacts();
    IdlingFacts(b);
    OneName();
    SecondPrepares(w, a, b);
    var d := Room(w, a, b, Idling(), Served7(), Queued("8"), [], [Call0(b)], [], One(a), 1);
    Look(w, a, b, Idling(), Served7(), Queued("8"), [], [Call0(b)], [], One(a), 1);
    SecondFound(w, a, b);
    SecondTakes(w, a, b);
    Look(w, a, b, Again(), Served7(), Taken(), [], [], [], Both(a, b), 1);
    hide StripSlash;
  }

  // The two runs

  lemma Begins(s: State, events: seq<Event>, c: Connect, v: Conn, u: Conn, t: State)
    requires Reachable(s, 1, events) && c in s.conns && c in s.table && s.conns[c] == v
    requires v.status == Net && !v.workerMode && !v.started && v.client.None?
    requires u == Sessions.Fresh(v).(failOnDisconnect := false, noid := false) && t == Upd(s, c, u)
    ensures Reachable(t, 1, events + [Begun(c)])
  {
    hide Reachable, Wf, Sessions.Fresh, Upd, Grounded, ConnsLive;
    if Wf(s) {
      BeginIs(s, c, u);
    }
    hide Begin;
    Then(s, events, Begun(c), t);
  }

  lemma Completes(s: State, events: seq<Event>, c: Connect, r: Request, t: State)
    requires Reachable(s, 1, events) && c in s.conns && c in s.table && s.conns[c].started && Listens(s.conns[c])
    requires Unclaimed(s, c, r.setId)
    requires Wf(s) ==> Complete(s, c, r, 0, ZEROS) == t
    ensures Reachable(t, 1, events + [Completed(c, r, 0, ZEROS)])
  {
    hide Reachable, Wf, Complete, Grounded, ConnsLive, Unclaimed;
    Then(s, events, Completed(c, r, 0, ZEROS), t);
  }

  lemma StartFacts()
    ensures Sessions.Fresh(Fresh0()).(failOnDisconnect := false, noid := false) == Begun0()
    ensures Begun0().started && Begun0().status == Net && Begun0().connectionId == "" && Adds().setId == "w"
    ensures Adds().kind == Add
    ensures Fresh0().status == Net && !Fresh0().workerMode && !Fresh0().started && Fresh0().client.None?
    ensures Listens(Begun0()) && Listens(Back()) && Back().started && Back().connectionId == "w"
    ensures Working().status == Net && !Working().workerMode && !Working().started && Working().client.None?
    ensures forall id :: Calls(id).setId == ""
  {
  }

  /** w serves a under "7", and b is queued under this id. */
  lemma QueuedIsReached(w: Connect, a: Connect, b: Connect, id: string) returns (events: seq<Event>)
    requires w != a && w != b && a != b
    ensures Reachable(Room(w, a, b, Working(), Served7(), Queued(id), [], [Call0(b)], [w], One(a), 1), 1, events)
  {
    hide Reachable, Wf, Room, Lobby, Fresh0, Begun0, Parked, Working, Served7, Queued, Adds, Calls, Complete, Listens;
    hide Upd, Grounded, ConnsLive;
    StartFacts();
    events := AllHere(w, a, b);
    LobbyIs(w, a, b, Fresh0());
    UpdLobby(w, a, b, Fresh0(), Begun0());
    Begins(Lobby(w, a, b, Fresh0()), events, w, Fresh0(), Begun0(), Lobby(w, a, b, Begun0()));
    events := events + [Begun(w)];
    LobbyIs(w, a, b, Begun0());
    var s1 := Room(w, a, b, Parked(), Fresh0(), Fresh0(), [w], [], [w], map[], 0);
    if Wf(Lobby(w, a, b, Begun0())) {
      FirstAdds(w, a, b);
    }
    Completes(Lobby(w, a, b, Begun0()), events, w, Adds(), s1);
    events := events + [Completed(w, Adds(), 0, ZEROS)];
    Look(w, a, b, Parked(), Fresh0(), Fresh0(), [w], [], [w], map[], 0);
    UpdRoom(w, a, b, Parked(), Fresh0(), Fresh0(), [w], [], [w], map[], 0, Begun0());
    var s2 := Room(w, a, b, Parked(), Begun0(), Fresh0(), [w], [], [w], map[], 0);
    Begins(s1, events, a, Fresh0(), Begun0(), s2);
    events := events + [Begun(a)];
    events := QueuedAfter(w, a, b, id, events);
  }

  lemma QueuedAfter(w: Connect, a: Connect, b: Connect, id: string, events: seq<Event>) returns (more: seq<Event>)
    requires w != a && w != b && a != b
    requires Reachable(Room(w, a, b, Parked(), Begun0(), Fresh0(), [w], [], [w], map[], 0), 1, events)
    ensures Reachable(Room(w, a, b, Working(), Served7(), Queued(id), [], [Call0(b)], [w], One(a), 1), 1, more)
  {
    hide Reachable, Wf, Room, Lobby, Fresh0, Begun0, Parked, Working, Served7, Queued, Adds, Calls, Complete, Listens;
    hide Upd, Grounded, ConnsLive;
    StartFacts();
    var s2 := Room(w, a, b, Parked(), Begun0(), Fresh0(), [w], [], [w], map[], 0);
    Look(w, a, b, Parked(), Begun0(), Fresh0(), [w], [], [w], map[], 0);
    if Wf(s2) {
      FirstCalls(w, a, b);
    }
    var s3 := Room(w, a, b, Working(), Served7(), Fresh0(), [], [], [w], One(a), 0);
    Completes(s2, events, a, Calls("7"), s3);
    more := events + [Completed(a, Calls("7"), 0, ZEROS)];
    Look(w, a, b, Working(), Served7(), Fresh0(), [], [], [w], One(a), 0);
    UpdRoom(w, a, b, Working(), Served7(), Fresh0(), [], [], [w], One(a), 0, Begun0());
    var s4 := Room(w, a, b, Working(), Served7(), Begun0(), [], [], [w], One(a), 0);
    Begins(s3, more, b, Fresh0(), Begun0(), s4);
    more := more + [Begun(b)];
    Look(w, a, b, Working(), Served7(), Begun0(), [], [], [w], One(a), 0);
    if Wf(s4) {
      SecondCalls(w, a, b, id);
    }
    var s5 := Room(w, a, b, Working(), Served7(), Queued(id), [], [Call0(b)], [w], One(a), 1);
    Completes(s4, more, b, Calls(id), s5);
    more := more + [Completed(b, Calls(id), 0, ZEROS)];
  }

  /** Two clients with one id: when the queued one disconnects, the accounts break. */
  lemma SharedIdBreaks(w: Connect, a: Connect, b: Connect) returns (t: State, events: seq<Event>)
    requires w != a && w != b && a != b
    ensures Reachable(t, 1, events) && Wf(t) && b in t.conns && b in t.table
    ensures t.conns[b].status == ClientWaitResult && t.conns[b].id in t.wait && t.wait[t.conns[b].id] == a
    ensures !Sane(Disconnect(t, b))
  {
    hide Reachable, Wf, Room, Working, Served7, Queued, Sane, Order.Orderly, Disconnect, Grounded, ConnsLive;
    t := Room(w, a, b, Working(), Served7(), Queued("7"), [], [Call0(b)], [w], One(a), 1);
    events := QueuedIsReached(w, a, b, "7");
    Look(w, a, b, Working(), Served7(), Queued("7"), [], [Call0(b)], [w], One(a), 1);
    QueuedStatus("7");
    ReachableInv(t, 1, events);
    InvWf(t);
    Collisions.DisconnectIsSafeIff(t, b);
  }

  lemma QueuedStatus(id: string)
    ensures Queued(id).status == ClientWaitResult && Queued(id).id == id && Taken().status == Busy && Taken().id == "8"
  {
  }

  /** A call that is taken from a queue: when its client disconnects, its id stays taken. */
  lemma BusyKeepsId(w: Connect, a: Connect, b: Connect) returns (t: State, events: seq<Event>)
    requires w != a && w != b && a != b
    ensures Reachable(t, 1, events) && Wf(t) && b in t.conns && Enabled(t, Disconnected(b))
    ensures t.conns[b].status == Busy && t.conns[b].id == "8" && "8" in t.wait && t.wait["8"] == b
    ensures "8" in Disconnect(t, b).wait
  {
    hide One, Reachable, Wf, Room, Working, Served7, Queued, Taken, Again, Back, Disconnect, Complete, Upd, Adds;
    hide Listens, Inv, Grounded, ConnsLive;
    StartFacts();
    WorkingFacts();
    QueuedStatus("8");
    var s5 := Room(w, a, b, Working(), Served7(), Queued("8"), [], [Call0(b)], [w], One(a), 1);
    events := QueuedIsReached(w, a, b, "8");
    Look(w, a, b, Working(), Served7(), Queued("8"), [], [Call0(b)], [w], One(a), 1);
    UpdRoom(w, a, b, Working(), Served7(), Queued("8"), [], [Call0(b)], [w], One(a), 1, Back());
    var s6 := Room(w, a, b, Back(), Served7(), Queued("8"), [], [Call0(b)], [w], One(a), 1);
    Begins(s5, events, w, Working(), Back(), s6);
    events := events + [Begun(w)];
    Look(w, a, b, Back(), Served7(), Queued("8"), [], [Call0(b)], [w], One(a), 1);
    if Wf(s6) {
      SecondAdds(w, a, b);
    }
    t := Room(w, a, b, Again(), Served7(), Taken(), [], [], [], Both(a, b), 1);
    Completes(s6, events, w, Adds(), t);
    events := events + [Completed(w, Adds(), 0, ZEROS)];
    Look(w, a, b, Again(), Served7(), Taken(), [], [], [], Both(a, b), 1);
    ReachableInv(t, 1, events);
    InvWf(t);
    DisconnectFreesIff(t, 1, events, b, "8");
  }
}
