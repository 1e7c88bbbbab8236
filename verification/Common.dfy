/**
 The request handlers as functions from state to state, branch by branch. A handler runs
 on the loop of the connection it serves and is one atomic step.
 */
module Common {
  import opened Connections
  import opened Deques
  import opened Names
  import opened BrokerState
  import Numerals

  /** The draws of the random generator, by position. */
  type Entropy = nat -> nat

  /** generate_id: the 32-bit counter in the high half, 16 random bits in the low half. */
  function GeneratedId(index: nat, rnd: Entropy): (id: string)
    ensures id != ""
  {
    Numerals.Numeral(16, (index * 0x10000) % 0x1_0000_0000 + rnd(index) % 0x10000)
  }

  /** A request without an id takes the one in its body, and failing that a fresh one. */
  function ResolvedId(s: State, c: Connect, rnd: Entropy): (id: string)
    requires c in s.conns
    ensures id != ""
  {
    var v := s.conns[c];
    if v.id != "" then v.id else if v.jsonId != "" then v.jsonId else GeneratedId(s.idIndex + 1, rnd)
  }

  function ResolveId(s: State, c: Connect, rnd: Entropy): State
    requires c in s.conns
  {
    var v := s.conns[c];
    Upd(s, c, v.(id := ResolvedId(s, c, rnd)))
    .(idIndex := s.idIndex + (if v.id == "" && v.jsonId == "" then 1 else 0))
  }

  function ResolveConnectionId(s: State, w: Connect, rnd: Entropy): State
    requires w in s.conns
  {
    var v := s.conns[w];
    if v.connectionId != "" then s
    else Upd(s, w, v.(connectionId := GeneratedId(s.idIndex + 1, rnd))).(idIndex := s.idIndex + 1)
  }

  lemma ResolveIdWf(s: State, c: Connect, rnd: Entropy)
    requires Wf(s) && c in s.conns
    ensures SameFrame(s, ResolveId(s, c, rnd))
  {
    var u := Upd(s, c, s.conns[c].(id := ResolvedId(s, c, rnd)));
    UpdWf(s, c, s.conns[c].(id := ResolvedId(s, c, rnd)));
    IndexWf(u, ResolveId(s, c, rnd).idIndex);
  }

  lemma IndexWf(s: State, n: nat)
    requires Wf(s)
    ensures SameFrame(s, s.(idIndex := n))
  {
    hide WorkersLive, ClientsLive, ListsLive, WaitLive, ConnsLive;
  }

  /** A scan visits the handler's own loop first (index -1) and then the others in order. */
  function LoopAt(index: int, local: nat): nat
    requires -1 <= index
  {
    if index < 0 then local else index
  }

  predicate Suits(required: string, connectionId: string) {
    required == "" || required == connectionId
  }

  predicate Ready(v: Conn) {
    !v.closed && v.status == WorkerWaitJob
  }

  /** The state a worker is left in by an asynchronous job. */
  function StatusAfterAsync(v: Conn): Status {
    if v.workerMode then WorkerModeAsync else Net
  }

  // What a handler leaves in the two connections it brings together.

  function Told(v: Conn, r: Reply): Conn {
    v.(out := v.out + [r])
  }

  function Served(v: Conn, status: Status, r: Reply): Conn {
    v.(status := status, out := v.out + [r])
  }

  function ServedLinked(v: Conn, c: Connect, r: Reply): Conn {
    v.(client := Some(c), status := WorkerWaitResult, out := v.out + [r])
  }

  function ServedWithId(v: Conn, c: Connect, r: Reply): Conn {
    v.(client := if v.failOnDisconnect then Some(c) else v.client, status := Net, out := v.out + [r])
  }

  function LinksGiven(v: Conn): nat {
    if v.failOnDisconnect then 2 else 1
  }

  function Called(v: Conn, links: nat): Conn {
    v.(status := ClientWaitResult, link := v.link + links)
  }

  function JobOf(m: Msg): Job {
    Job(m.stamp, m.name, m.body)
  }

  function FoundQueue(s: State, name: string): (r: Option<nat>)
    requires Shape(s)
    ensures r.Some? ==> r.value < |s.lists|
  {
    LookupBound(s, name);
    var n := Lookup(s.names, name);
    if n == 0 then None else Some(n - 1)
  }

  lemma LookupBound(s: State, name: string)
    requires Shape(s)
    ensures Lookup(s.names, name) <= |s.lists|
  {
    PrefixBound(s, name, |name|);
  }

  lemma {:induction false} PrefixBound(s: State, name: string, i: nat)
    requires Shape(s) && i <= |name|
    ensures LongestPrefix(s.names.wild, name, i) <= |s.lists|
  {
    if name[..i] !in s.names.wild && i > 0 {
      PrefixBound(s, name, i - 1);
    }
  }

  /** get_queue with create: a new queue gets empty deques, and the name is registered for it. */
  function CreateQueue(s: State, name: string): State {
    s.(workers := s.workers + [NewLine(s.threads)],
       clients := s.clients + [NewLine(s.threads)],
       lists := s.lists + [[]],
       names := Register(s.names, name, |s.lists| + 1))
  }

  function OpenQueue(s: State, name: string): State
    requires Shape(s)
  {
    if FoundQueue(s, name).Some? then s else CreateQueue(s, name)
  }

  /** The queue that OpenQueue found or made. */
  function OpenedQueue(s: State, name: string): (q: nat)
    requires Shape(s)
    ensures q < |OpenQueue(s, name).lists|
  {
    match FoundQueue(s, name)
    case Some(q) => q
    case None => |s.lists|
  }

  lemma CreateQueueWf(s: State, name: string)
    requires Wf(s)
    ensures Wf(CreateQueue(s, name)) && CreateQueue(s, name).conns == s.conns
  {
    RegisterBound(s, name);
    CreateQueueLive(s, name);
    hide WorkersLive, ClientsLive, WaitLive;
  }

  lemma CreateQueueLive(s: State, name: string)
    requires Wf(s)
    ensures WorkersLive(CreateQueue(s, name).workers, s.conns.Keys)
    ensures ClientsLive(CreateQueue(s, name).clients, s.conns.Keys)
  {
  }

  lemma RegisterBound(s: State, name: string)
    requires Shape(s)
    ensures var n := Register(s.names, name, |s.lists| + 1);
      && (forall k :: k in n.exact ==> n.exact[k] <= |s.lists| + 1)
      && (forall k :: k in n.wild ==> n.wild[k] <= |s.lists| + 1)
  {
  }

  lemma OpenQueueWf(s: State, name: string)
    requires Wf(s)
    ensures Wf(OpenQueue(s, name)) && OpenQueue(s, name).conns == s.conns
  {
    CreateQueueWf(s, name);
  }

  lemma ResolveConnectionIdWf(s: State, w: Connect, rnd: Entropy)
    requires Wf(s) && w in s.conns
    ensures SameFrame(s, ResolveConnectionId(s, w, rnd))
  {
    hide WorkersLive, ClientsLive, ListsLive, WaitLive, GeneratedId;
    if s.conns[w].connectionId == "" {
      var v := s.conns[w].(connectionId := GeneratedId(s.idIndex + 1, rnd));
      UpdWf(s, w, v);
      IndexWf(Upd(s, w, v), s.idIndex + 1);
    }
  }
}
