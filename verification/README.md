# Verification of the job broker

A Dafny model of ijson, an in-memory job broker: clients call named queues, workers pull jobs
from them, and results are routed back. Four parts are modelled and proved.

**The broker** (`BrokerState`, `Common`, `ClientRequests`, `WorkerRequests`, `Sessions`,
`Servers`). Its state holds the connections, the deques of workers and messages of every queue
and loop, the worker lists, the awaited request ids, the connection table and the dead list.
The class `Server` carries out each handler in place, on containers and on connections in the
heap; each of its methods is proved to do to `View()`, the state as a value, what the
corresponding function does. The functions are then the place where the hard properties are
proved: two accounts (`References`, `Ledger`: every pointer is counted, every pending call is in
one place), the invariant of each connection (`Invariants`), and the order and matching of the
deques (`Order`), kept by every handler (`CallProofs`, `WorkerProofs`, `SessionProofs`,
`RequestProofs`, `LifeProofs`, `OrderProofs`, `OrderWorkers`) and so by every run (`Runs`).
`Leads`, `Deliveries`, `Replies` and `Results` follow the send buffers through each event: which
message or call every new job comes from, which request every result comes from, and who is told
what. `Guarantees` states what all that means; `Scans` and `Handlers` bring it back to the object.
`Collisions` and `Departures` have the cases in which ids collide or a worker leaves, and
`Scenarios` and `Mixups` runs from the empty broker that end in them. A handler is one atomic step, on any number of loops.

**Queue names** (`Names`, `NameFacts`, `Tries`, `Mappers`, `Linearizable`, `LinearProofs`,
`QueueTables`). The array trie agrees with a pair of maps under longest-prefix lookup, through
additions, growth and deletions. `Linearizable` splits lookups and additions into single reads
and writes of shared memory and interleaves them freely.

**Worker lists** (`WorkerLists`): the doubly linked list on the heap, with removal from the
middle and pointers back from the connections, over the lists of all queues together.

**Bytes** (`Numerals`, `Buffers`, `Escapes`, `JsonScan`, `JsonPrint`): the growable buffer, the
number codecs, comparison, in-place escaping and unescaping, and the pull scanner for JSON.

## Results worth knowing

- A disconnect looks up the awaited id by name alone. If two clients use one id and the one that
  is still queued goes away, it removes the other's entry. `DisconnectIsSafeIff` gives the exact
  condition, and `SharedIdBreaks` a run that ends in it; runs take the condition as a guard.
- A client whose call is taken from a queue has the status `busy` until its answer comes, and a
  disconnect leaves the entry of a busy client where it is: its id stays taken until the result
  comes (`DisconnectFreesIdIff`, and the run in `BusyKeepsId`).
- A worker with ids that leaves fails whatever call now stands under the current id of its client,
  which may be another client's call. `TellsOnlyItsClientIff` gives the exact condition, and
  `StrangerIsTold` a run that ends in it.
- A registration in worker mode sets the mode before it scans the body. If that cannot be scanned,
  the connection is answered with an error and stays in worker mode at rest; its next request
  throws it out (`ThrowsOutIff`, `StuckIff`, and the run in `BrokenModeThrows`).
- `escape` counts the quotes but never grows the storage. `Escape` gives the exact condition
  under which it stays inside, and `FullStorage` an input that does not. Backslashes are not
  escaped, so quoting and decoding restore exactly the strings whose backslashes each precede a
  quote (`QuotingRoundTripIff`).
- `add_number` writes every 64-bit number but the least one as it should, and `atoi` reads exactly
  those back; a number from 2^63 on, written by `add_hex`, comes back from `hextoi` as a negative
  one (`WrittenIff`, `HexBits`).
- `get_queue` puts the new queue in its slot before the name is added. A name that cannot be
  stored leaves a queue without an entry, and the mapper locked (`GetQueue`, `TabThrows`).
- The delimiters of numbers and literals do not include the tab, which JSON allows there, and a
  quote behind an escaped backslash is taken for an escaped quote. `ScanInvertsPrint` shows that
  these are all that the scanner gets wrong among the members of printed objects, inside of nested
  values aside; `TabFails` and `BackslashFails` have the inputs.

## Assumptions

- A `set-id` header asks for no id that a message waits for in a queue where the connection has an
  entry (`Unclaimed`); `SetIdKeepsIff` shows that this is exactly what order and matching need.
- On disconnect, an entry under the own id is the connection's own (`OwnEntry`).
- `_add_worker` counts an asynchronous job as "taken"; the code leaves its result unset there.
- Request ids are given, found in the path or the body, or generated.
- `calls` and `spoilt` are history: how many calls a connection has made, and whether its registration
  broke off; no handler looks at them.
- Signed overflow in `atoi`, `hextoi` and `add_number` wraps around.
- At most 65535 trie nodes (`MAX_NODE`); queue numbers are not cut to 16 bits.

## Model

| member | source | states |
|---|---|---|
| Guarantees.OneReplyPerCall | src/server.cpp:919-955 | in every reachable state the calls an open connection has made equal the closing replies written to it, plus one if it is still in a call |
| Guarantees.OnePlacePerCall | src/server.cpp:762-917 | the pending call of an open connection is in exactly one place (a queued message, one entry of wait_response, one worker without ids that serves it), and a connection in no call is in none |
| Guarantees.LinksAreExact | src/connect.cpp:9-13 | the link count equals the number of pointers to the connection; it is on the dead list exactly once when the count is 0 and not at all otherwise, and then it is closed and out of the table |
| Guarantees.NothingDangles | src/server.cpp:465-477 | nothing in any container or client pointer refers to a connection that has been deleted, in any state of any run |
| Guarantees.NothingThrows | src/server.cpp:937-991 | no throw of worker_result_noid and on_disconnect is ever reached, and a worker without ids has a client exactly while it owes a result; a worker that waits for a job has none |
| Guarantees.ThrowsOutIff | src/connect.cpp:154-168 | from a reachable state, the first line of a request throws a connection out if and only if it is in worker mode and at rest |
| Guarantees.StuckIff | src/connect.cpp:376-378 | in any step, a connection is in worker mode and at rest afterwards if and only if it was so before, or has just asked for worker mode with a body that cannot be scanned |
| Guarantees.ResultsAreRouted | src/server.cpp:919-955 | in any step, a connection hears a result if and only if a request delivers it there, with the body of that request: from the worker without ids that serves it, or under the id it is awaited by; it hears it once |
| Guarantees.NoMissedMatch | src/server.cpp:622-704 | no queue ever holds a worker entry and a message, on whatever pair of loops, that suit each other: a message that waits beside a worker entry names another worker |
| Guarantees.JobsAreConserved | src/server.cpp:820-826 | accepted asynchronous jobs are exactly those queued plus those handed over, each once; the jobs handed over are exactly those on the send buffers, deleted ones included, so each is on one buffer and none is lost |
| Guarantees.AcceptsWhatItTells | src/server.cpp:820-826 | a step accepts one job, with the name and body of the request, when it tells the caller that the job is accepted, and no other step accepts a job or tells anybody so |
| Guarantees.JobsAreDue | src/server.cpp:244-344 | in any step, nothing is taken back from a send buffer, and every job added to one comes from a message of a deque or from the call in this request |
| Guarantees.TakesFirst | src/server.cpp:622-704 | when a worker gets a job by its own request, a message with that job has left its deque, and every message still there that suits the worker comes after it, by priority and then by arrival |
| Guarantees.HonoursRequiredWorker | src/server.cpp:777-819 | when a call reaches a worker, that worker was ready in the queue the name resolves to, is the one the call names if it names one, and gets this call |
| Guarantees.ReadyWorkerWaits | src/server.cpp:622-749 | in every reachable state a ready worker has an entry in some queue on its own loop, and no message of that queue suits it |
| Guarantees.DisconnectKeepsIff | src/server.cpp:957-991 | from a reachable state, a disconnect keeps the whole invariant if and only if the entry under the connection's id, if it has one and waits, is its own |
| Guarantees.DisconnectFreesIff | src/server.cpp:957-976 | from a reachable state, an awaited client frees its id by disconnecting if and only if it is not busy |
| Replies.StepDelivers | src/server.cpp:550-991 | every event brings jobs only as promised, accepts jobs only as told, and leaves every ready worker in a queue of its loop |
| Results.StepRoutes | src/server.cpp:550-991 | every event delivers results only as its request says, and breaks off a registration only for a body that cannot be scanned |
| Guarantees.TellsOnlyItsClientIff | src/server.cpp:978-986 | from a reachable state, the disconnect of a worker that has a client is heard by no other connection if and only if the worker serves without ids or nobody else who is open is awaited under that client's id |
| Runs.RunInv | src/server.cpp:550-991 | the invariant (exact links, one place per call, pairing, settled accounts, order, no missed match, conserved jobs) holds after every run of accept, request start, request, disconnect, timeout, clean-up and deletion events |
| Runs.StartInv | src/server.cpp:193-197 | the broker without connections meets the invariant |
| Handlers.Handle | src/server.cpp:244-344 | each event, carried out on the server object, moves its view by one step of the run and keeps the invariant |
| Handlers.Admit | src/server.cpp:70-103 | accepting a connection on the object is the Accepted step, on a new object, and keeps the invariant |
| Collisions.CollisionRollsBack | src/server.cpp:781-868 | a call without required worker whose id is taken leaves the ready workers of every loop in their order, with their statuses and link counts, all messages and all awaited ids as they were, and tells the client |
| Collisions.DispatchRollsBack | src/server.cpp:859-868 | the put-back worker is at the front of its own loop again, as if it had not been erased |
| Collisions.DisconnectIsSafeIff | src/server.cpp:968-975 | a disconnect keeps the accounts if and only if the entry under the connection's id, if it has one and waits, is its own |
| Collisions.StrangersEntryLost | src/server.cpp:968-975 | when the entry is another client's, it is removed and that client is left with one link more than there are pointers to it |
| Scenarios.SharedIdBreaks | src/server.cpp:968-975 | a run from the empty broker in which two clients use one id, after which the disconnect of the queued one breaks the accounts |
| Scenarios.BusyKeepsId | src/server.cpp:957-976 | a run from the empty broker after which a busy client's disconnect leaves its id awaited |
| Departures.WhoIsTold | src/server.cpp:957-991 | a disconnect writes one reply, that the worker is unavailable, to exactly the connections the worker abandons, and nothing to any other |
| Departures.OnlyOwnClientIff | src/server.cpp:978-986 | the same for every sane state: which send buffers the disconnect changes |
| Mixups.StrangerIsTold | src/server.cpp:978-986 | a run from the empty broker after which the disconnect of one client's worker tells another client, whose own worker is still there, that it is unavailable |
| Mixups.BrokenModeThrows | src/connect.cpp:154-168 | a run of one connection that asks for worker mode with a body that cannot be scanned, is told so, and is thrown out by its next request |
| Runs.SetIdKeepsIff | src/connect.cpp:262-264 | a connection may take another id and keep the order and matching of the deques if and only if no message that waits where it has an entry asks for that id |
| Collisions.DisconnectFreesIdIff | src/server.cpp:957-976 | an awaited client frees its id by disconnecting if and only if its call was not taken from a queue (its status is not busy) |
| LifeProofs.StepSane | src/server.cpp:550-991 | every event keeps exact links, one place per call, pairing and settled accounts |
| Runs.StepOrderly | src/server.cpp:562-917 | every event keeps deque order, registration on the own loop, no missed match and conserved jobs |
| Servers.Server.constructor | src/server.cpp:193-197 | an empty server with the given number of loops |
| Servers.Server.DropLink | src/connect.cpp:9-13 | one link less: the last one puts the connection on the dead list, one too many is an error |
| Servers.Server.EraseWorkerAt | src/server.cpp:789-790 | the entry leaves its deque and its connection loses one link; nothing else changes |
| Servers.Server.EraseMessageAt | src/server.cpp:639-640 | the message leaves its deque and its client, if any, loses one link; nothing else changes |
| Servers.Server.ScanDeque | src/server.cpp:782-817 | in place, the scan of one deque: entries of other workers are passed, unready ones erased, the first ready one found |
| Servers.Server.FindWorker | src/server.cpp:775-819 | in place, the scan of the own loop and then every other loop once, in order |
| CallProofs.FindWorkerSane | src/server.cpp:775-819 | the scan keeps all accounts, changes nothing but link counts, and finds only a ready worker |
| OrderProofs.FindWorkerOrderly | src/server.cpp:775-819 | after a scan that finds nobody, no deque of the queue holds an entry that suits the call |
| Servers.Server.DispatchAsync | src/server.cpp:822-826 | the job goes to the worker's buffer, the client is told at once, and the worker is ready for something else |
| CallProofs.DispatchAsyncSane | src/server.cpp:822-826 | handing over an asynchronous job keeps the accounts and closes the call |
| Servers.Server.DispatchLinked | src/server.cpp:827-832 | a worker without ids points at the client, which waits |
| CallProofs.DispatchLinkedSane | src/server.cpp:827-832 | the client's call is then with this worker only, and the pointer is counted |
| Servers.Server.DispatchWithId | src/server.cpp:834-881 | the client waits under its id, and a worker that must not vanish silently points at it too |
| CallProofs.DispatchWithIdSane | src/server.cpp:869-881 | the call is then in wait_response only, and both pointers are counted |
| Servers.Server.Rollback | src/server.cpp:859-868 | an id in use: the worker goes back to the front of its own loop's deque and the client is told |
| Servers.Server.Dispatch | src/server.cpp:781-881 | erases the entry found and serves the call in one of the four ways above |
| CallProofs.DispatchSane | src/server.cpp:781-881 | whichever way it goes, the broker is sane afterwards |
| Servers.Server.InsertMessage | src/server.cpp:901-908 | searching from the back, the message goes behind the last one of at least its priority |
| OrderProofs.SlotSplits | src/server.cpp:901-908 | every message before the chosen position has at least the new one's priority, and every message from there on less |
| OrderProofs.SlotSorted | src/server.cpp:901-908 | inserting there keeps the deque in stable priority order |
| Servers.Server.Enqueue | src/server.cpp:883-914 | "if present" without workers is refused; an asynchronous call is queued and its client told; any other client waits |
| CallProofs.EnqueueSane | src/server.cpp:883-914 | queueing puts the call in one place and counts its pointer |
| OrderProofs.EnqueueOrderly | src/server.cpp:883-914 | queueing keeps order and leaves no match, when no worker suits the message |
| Servers.Server.ClientRequest | src/server.cpp:762-917 | the whole of client_request on the object equals its function on the view |
| CallProofs.ClientRequestSane | src/server.cpp:762-917 | from an idle client, client_request keeps the broker sane |
| OrderProofs.ClientRequestOrderly | src/server.cpp:762-917 | client_request keeps deque order, no missed match and conserved jobs |
| Servers.Server.TryMessage | src/server.cpp:631-700 | in place, one message of the scan: passed, dropped, rejected for its id, or found |
| Servers.Server.ScanMessages | src/server.cpp:630-702 | in place, the scan of one client deque, erasing what it drops |
| Servers.Server.FindMessage | src/server.cpp:622-704 | in place, the scan over all loops, the own one first |
| WorkerProofs.FindMessageSane | src/server.cpp:622-704 | dropped messages leave no trace in the accounts, clients turned away have their reply, and a found message can be taken |
| OrderWorkers.FindMessageOrderly | src/server.cpp:622-704 | after a scan that finds nothing, no deque of the queue holds a message that suits the worker; a found one is the first of its deque |
| Scans.TryGoesOn | src/server.cpp:631-700 | one turn of the scan leaves the rest of the scan with the same result |
| Servers.Server.Take | src/server.cpp:706-727 | the message leaves its deque and the worker gets the job, with or without an id; the client stays busy until its answer |
| WorkerProofs.TakeSane | src/server.cpp:706-727 | the call moves from the queue to one new place, and every new pointer is counted |
| OrderWorkers.TakeOrderly | src/server.cpp:706-727 | taking a message keeps order, and the job counts as handed over once |
| Servers.Server.Sweep | src/server.cpp:732-744 | in place, closed workers and earlier entries of this worker leave the own loop's deque |
| Servers.Server.Park | src/server.cpp:730-749 | the worker is swept and put at the end of its own loop's deque |
| OrderWorkers.ParkOrderly | src/server.cpp:730-749 | a worker parked after an empty scan matches no message |
| Servers.Server.PushItem | src/workerlist.cpp:28-38 | the connection is first in the queue's worker list, with one more link |
| Servers.Server.PopItem | src/workerlist.cpp:15-26 | the connection leaves its worker list and loses the link of its item |
| Servers.Server.Enlist | src/server.cpp:752-755 | a list item only for a connection that has none and serves as a worker |
| Servers.Server.Prepare | src/server.cpp:583-607 | the queue exists, the worker has an id, and a worker that moved to another name has left its list |
| Servers.Server.AddWorker | src/server.cpp:583-760 | _add_worker for one name on the object equals its function on the view |
| WorkerProofs.AddWorkerSane | src/server.cpp:583-760 | _add_worker keeps the broker sane, and a worker that got nothing is idle |
| OrderWorkers.AddWorkerOrderly | src/server.cpp:583-760 | _add_worker keeps order, no missed match and conserved jobs |
| Servers.Server.AddWorkers | src/server.cpp:562-581 | in place, the names separated by commas or blanks, up to the first queue that has a job |
| WorkerProofs.AddWorkersSane | src/server.cpp:562-581 | whatever the list of names, the broker ends up sane |
| Servers.Server.WorkerResult | src/server.cpp:919-935 | the entry is removed; the client gets the reply and is at rest, unless it has gone; -1, -2 or 0 |
| SessionProofs.WorkerResultSane | src/server.cpp:919-935 | the code tells exactly an unknown id, a client that has gone, or delivery; only that client is touched |
| Servers.Server.WorkerResultNoid | src/server.cpp:937-955 | the worker lets go of its client, which gets the reply unless it has gone |
| SessionProofs.WorkerResultNoidSane | src/server.cpp:937-955 | from a worker that owes a result, the client is found, the accounts hold, and the code tells whether it had gone |
| SessionProofs.EntryWaits | src/server.cpp:919-935 | an entry of wait_response is keyed by its client's id, and the client is in a call or closed |
| Servers.Server.ForgetCall | src/server.cpp:968-976 | the entry under the own id is removed only for a client that still waits for its result, not for a busy one |
| Servers.Server.FailServed | src/server.cpp:978-986 | the client of a lost worker is told that it is unavailable |
| Servers.Server.OnDisconnect | src/server.cpp:957-991 | on_disconnect on the object equals its function on the view |
| Servers.Server.Disconnect | src/server.cpp:550-560 | _close: marked closed, duties settled, one link less, out of the table |
| SessionProofs.DisconnectSane | src/server.cpp:550-560 | closing a connection keeps the broker sane |
| SessionProofs.ClosedOnDisconnect | src/server.cpp:550-556 | marking the connection closed before or after on_disconnect makes no difference |
| Servers.Server.Begin | src/connect.cpp:145-168 | the reset at the first line of a request; a worker in a state it cannot be in is thrown out |
| SessionProofs.BeginSane | src/connect.cpp:145-168 | the first line keeps the broker sane, and throws out exactly a connection in worker mode and at rest |
| Servers.Server.RpcAdd | src/connect.cpp:469-502 | registers under the names the connection carries, or refuses a request without one |
| Servers.Server.Perform | src/connect.cpp:359-438 | a body that cannot be scanned, where the handler scans it, is answered with an error and nothing else; any other request is handled by its type |
| RequestProofs.RpcAddSane | src/connect.cpp:469-502 | rpc_add keeps the broker sane |
| Servers.Server.NextJob | src/connect.cpp:329-343 | worker mode: delivers the current result, if one is owed, and asks for the next job or stops |
| RequestProofs.NextJobSane | src/connect.cpp:329-343 | "No connected client" is not reached in worker mode, and the broker stays sane |
| Servers.Server.Stop | src/connect.cpp:331-337 | the worker leaves its list and worker mode |
| Servers.Server.FinishJob | src/connect.cpp:345-357 | a worker without ids must deliver a result; the reply tells whether its client had gone |
| Servers.Server.RpcResult | src/connect.cpp:441-467 | the id comes from the header, or the path, or the body; the reply tells the outcome |
| RequestProofs.RpcResultSane | src/connect.cpp:441-467 | rpc_result keeps the broker sane |
| Servers.Server.Complete | src/connect.cpp:273-439 | header_completed on the object equals its function on the view, branch by branch |
| RequestProofs.CompleteSane | src/connect.cpp:273-439 | every complete request keeps the broker sane |
| Runs.CompleteOrderly | src/connect.cpp:273-439 | every complete request keeps order, no missed match and conserved jobs |
| Servers.Server.CheckTimeout | src/server.cpp:428-463 | in place, every entry of every deque in order; ready workers whose time is up are told and leave the waiting state |
| RequestProofs.CheckTimeoutSane | src/server.cpp:428-463 | timeouts keep the broker sane |
| Servers.Server.CleanWorkers | src/service.cpp:103-112 | in place, entries of workers that are not ready leave the deque |
| Servers.Server.CleanClients | src/service.cpp:114-123 | in place, messages whose client has gone or no longer waits leave the deque; asynchronous ones stay |
| Servers.Server.Clean | src/service.cpp:94-127 | in place, all queues whose lock is free, all loops |
| RequestProofs.CleanSane | src/service.cpp:94-127 | the janitor keeps the broker sane |
| Runs.CleanOrderly | src/service.cpp:94-127 | the janitor keeps order and drops no asynchronous job |
| Servers.Server.Accept | src/server.cpp:204-206 | a new connection of this loop, in the table, with one link |
| LifeProofs.AcceptSane | src/server.cpp:204-206 | a new connection keeps the broker sane |
| Servers.Server.DeleteConnections | src/server.cpp:465-477 | in place, the dead connections of this loop without links are deleted; those of other loops stay listed |
| LifeProofs.DeleteSane | src/server.cpp:465-477 | deletion keeps the broker sane: nothing pointed at what is deleted |
| LifeProofs.VictimFree | src/server.cpp:465-477 | no container points at a connection that is deleted |
| Servers.Server.UseQueue | src/server.cpp:138-164 | the queue a name resolves to, made and registered if there is none |
| Mappers.Mapper.constructor | src/mapper.cpp:7-15 | an empty table of names |
| Mappers.Mapper.Find | src/mapper.cpp:87-107 | the walk returns the exact entry, else the longest stored prefix's value, else 0, also while somebody is adding |
| Mappers.Mapper.Next | src/mapper.cpp:17-35 | the next node number; a full buffer is copied into a larger one whose rest is blank |
| Mappers.Mapper.Add | src/mapper.cpp:37-80 | the table gains exactly this entry, unless a character before the first star cannot be stored: then it throws, unchanged and locked |
| Mappers.Mapper.Extend | src/mapper.cpp:58-63 | linking a new node changes no answer |
| Mappers.Mapper.Commit | src/mapper.cpp:44-52 | the last write stores the entry, visible at once only if the nodes did not move |
| Mappers.Mapper.Publish | src/mapper.cpp:68-79 | after the exchange readers see the table of the copy, and the old buffer is on the free list |
| Mappers.Mapper.Del | src/mapper.cpp:109-134 | the table loses exactly this entry, and its value is returned |
| Tries.LinkAdds | src/mapper.cpp:58-63 | a new link keeps the numbering, gives the node its one parent, and stores nothing |
| Tries.GrowKeeps | src/mapper.cpp:21-33 | a copy that is blank beyond the old nodes holds the same trie and the same entries |
| NameFacts.LongestPrefixIs | src/mapper.cpp:87-107 | the lookup of prefixes yields the value of the longest registered one, 0 exactly when there is none |
| NameFacts.OnlyMatchesChange | src/mapper.cpp:37-66 | registering or forgetting an entry changes only answers for names it matches |
| NameFacts.RegisteredAnswers | src/mapper.cpp:44-52 | a registered entry answers for itself |
| NameFacts.NewIsFound | src/mapper.cpp:87-107 | a name that resolved to nothing resolves to its own value after it is added, star or not |
| LinearProofs.FindIsLinearizable | src/mapper.cpp:87-107 | for every interleaving of a walk with additions, the result is the answer of the table as it stood at some instant of the walk |
| LinearProofs.WalksStayInside | src/mapper.cpp:83-106 | a walk never leaves the buffer it loaded |
| LinearProofs.AdditionsAreAtomic | src/mapper.cpp:37-73 | until its last write, or the exchange when it works on a copy, an addition is invisible; then it is complete |
| LinearProofs.AdditionsGetOn | src/mapper.cpp:43-66 | an addition is never stuck at a node outside its buffer |
| LinearProofs.NextKeeps | src/mapper.cpp:37-107 | every single read and write keeps what the walk and the addition rely on |
| QueueTables.QueueTable.GetQueue | src/server.cpp:138-164 | returns the queue the name resolves to, or creates it in the first free slot; throws exactly for an unknown name that cannot be stored, and then the new queue is in its slot without an entry, and the mapper locked |
| QueueTables.TabThrows | src/server.cpp:150-162 | a name with a tab does that to an empty table |
| QueueTables.QueueTable.DeleteQueue | src/server.cpp:166-171 | the entry of the name goes and its slot becomes free |
| QueueTables.FillKeeps | src/server.cpp:150-162 | filling a free slot keeps slots and entries in one-to-one agreement |
| QueueTables.EmptyKeeps | src/server.cpp:168-171 | emptying a slot with its entry keeps the agreement |
| QueueTables.NamelessSlot | src/server.cpp:150-162 | a filled slot without an entry breaks it |
| WorkerLists.WorkerItem.Unhook | src/workerlist.cpp:17-23 | the neighbours point at each other and the head is right, wherever the item was |
| WorkerLists.WorkerItem.Pop | src/workerlist.cpp:10-26 | the list loses exactly this item, prev and next stay inverse, and the connection loses its item and one link |
| WorkerLists.WorkerList.Push | src/workerlist.cpp:28-38 | the list gains a new item in front, and the connection a link |
| WorkerLists.PushMutual | src/workerlist.cpp:28-38 | a pushed item and its connection point at each other, across all lists |
| WorkerLists.PopMutual | src/workerlist.cpp:10-26 | after a pop all others still do |
| WorkerLists.Roster.Enlist | src/server.cpp:752-754 | enlisting in one queue keeps all lists chained and all back-pointers mutual |
| WorkerLists.Roster.Leave | src/server.cpp:599-600 | leaving, whatever list the item is in, keeps them so and changes only that list, link and back-pointer |
| WorkerLists.Roster.Clear | src/workerlist.cpp:40-42 | destruction terminates with the list empty, each of its connections without item and with one link less, all others untouched |
| Buffers.GetCap | src/buffer.h:204-214 | the least rung (16 doubling to 4096, then multiples of 4096) not below the request |
| Buffers.Buffer.Resize | src/buffer.h:228-239 | contents are kept, storage grows to the least rung, and only if it must |
| Buffers.Buffer.Add | src/buffer.h:246-251 | appends, or refuses a null slice and changes nothing |
| Buffers.Buffer.RemoveLeft | src/buffer.h:310-318 | drops that many characters from the front, all of them if there are no more |
| Buffers.Buffer.Move | src/buffer.h:319-324 | takes over contents and storage; the other buffer keeps the old storage and is empty |
| Buffers.Buffer.AddNumber | src/buffer.h:262-281 | appends the decimal form of every 64-bit number, but for the least a minus sign and characters that are no digits |
| Buffers.Buffer.AddHex | src/buffer.h:282-295 | appends the hexadecimal form |
| Buffers.PrintNumber | src/buffer.h:265-280 | 20 bytes are enough for every 64-bit number |
| Buffers.PrintHex | src/buffer.h:287-294 | 16 bytes are enough |
| Buffers.ParseDecimal | src/buffer.h:92-109 | the loop computes what the digits denote, cut to a signed word of 64 bits, or the error |
| Buffers.ParseHex | src/buffer.h:110-123 | likewise for hexadecimal digits of either case |
| Numerals.WrittenIff | src/buffer.h:262-281 | a 64-bit number is read back as it was written if and only if it is not the least one, which is not read back at all |
| Numerals.HexBits | src/buffer.h:282-295 | a 64-bit number written in hexadecimal comes back with the same bits, so as a negative number from 2^63 on |
| Numerals.AtoiDecimal | src/buffer.h:92-109 | parsing what was printed returns the number |
| Numerals.HextoiNumeral | src/buffer.h:110-123 | parsing what was printed in hexadecimal returns the number |
| Buffers.ParsingStaysInRange | src/buffer.h:102-107 | if the result fits 63 bits, so does every intermediate value |
| Buffers.Compare | src/buffer.h:61-71 | negative, zero or positive exactly for before, equal and after in the order of signed bytes |
| Buffers.BeforeIsTotal | src/buffer.h:61-71 | that order is total and irreflexive |
| Buffers.BeforeIsTransitive | src/buffer.h:61-71 | and transitive |
| Escapes.Escape | src/json.cpp:61-80 | in place, a backslash before every quote; it fits exactly if the text has no quotes or the storage has room for one more character each |
| Escapes.FullStorage | src/json.cpp:61-80 | sixteen quotes in a storage of sixteen do not fit |
| Escapes.Unescape | src/json.cpp:5-58 | in place, the functional decoder for every text, with the write position never past the read position |
| Escapes.Utf8IsStandard | src/json.cpp:16-36 | the bytes written for an escape are the UTF-8 form of section 3 of RFC 3629 if and only if it is no surrogate |
| Escapes.UnescapeEscapeIff | src/json.cpp:5-80 | unescaping undoes escaping if and only if every backslash stands directly before a quote |
| JsonScan.Json.Strip | src/json.cpp:114-125 | skips blanks; an error at the end of the data |
| JsonScan.Json.ReadString | src/json.cpp:127-138 | the characters up to the first quote that no backslash precedes |
| JsonScan.Json.ReadValue | src/json.cpp:141-158 | a run of digits or a literal, up to its delimiter, or an error |
| JsonScan.Json.ReadObject | src/json.cpp:161-177 | everything up to the closing bracket, strings aside |
| JsonScan.Json.Scan | src/json.cpp:83-111 | the next member, the end, or an error, and where the next scan goes on |
| JsonScan.Json.Load | src/json.h:21-33 | a scanner of the given data, from the start, whatever it scanned before |
| JsonPrint.ScanInvertsPrint | src/json.cpp:83-177 | scanning a printed object yields its members as raw slices in order and then no more if and only if no number or literal has a tab right behind it and no key or string value ends in a backslash; with tabs alone it ends in an error |
| JsonPrint.TabFails | src/json.cpp:141-158 | an object with a number and a tab, which is not read, and the same with a blank before the tab, which is |
| JsonPrint.BackslashFails | src/json.cpp:127-138 | an object whose one value is an escaped backslash is not read as that |
| JsonPrint.Members | src/json.cpp:83-111 | the loop of scans computes that list, and terminates on all data |
| JsonPrint.QuotingRoundTripIff | src/json.cpp:127-138 | escaping, quoting, reading and decoding return the original if and only if each of its backslashes precedes a quote |
| JsonPrint.PlainStringsRoundTrip | src/json.cpp:180-183 | so they do for every string without backslashes |

## Left out

- pub and `direct_message`: runs are without them; the early return at src/server.cpp:609-612 leaves the worker's status as it was.
- Deleting a queue while messages or workers are in it (src/server.cpp:173-188): only the effect on names and slots is modelled, and broker runs do not delete queues.
- Loop migration and balancing: `go_loop` and `need_loop` have no counterpart.
- Sockets, sending, threads, clocks, logging, statistics, limits on addresses: time and random numbers are parameters.
- The parsing of request lines and headers: a request arrives as a record of its fields, with what the handler finds in its body and whether scanning the body ends in an error.
- Locks and real concurrency inside handlers: each handler is one step.
- The moment at which the garbage collector of a handler releases a message: the model drops the link where the message is erased, before the handler ends.
- Dead connections are one list filtered by loop instead of one list per loop.
- Deques are sequences that the server reassigns, and a queue is an index instead of an object; erasing does not model iterators.
- A character that cannot be stored in a queue name: broker runs register every name (`Register`), and the throw is modelled in `QueueTables` and `Linearizable`.
- Deletion of names while a walk is under way, freeing of old buffers after a delay, and weak memory: `Linearizable` has additions only, keeps all buffers, and is sequentially consistent.
- Linearizable.Larger: capacities are unbounded there, without the limit of 65535 nodes.
- Servers.Server.PopItem: on the server the item leaves a sequence of connections; `WorkerLists` has the removal of the linked item.
- Servers.Server.RpcAdd: the loop over a JSON body is replaced by fields of the request, and its error by a flag that `Perform` looks at; `JsonPrint.Members` has the loop.
- JsonPrint.ScanInvertsPrint: strings inside nested values are taken not to end in a backslash.
- Servers.Server.Complete: has no branch for pub, create, delete, help and details requests.
- Servers.Server.UseQueue: registers every name; `QueueTables.QueueTable.GetQueue` has the throw for a name that cannot be stored.
- Servers.Server.PushItem: on the server a worker list is a sequence of connections; the linked items are in `WorkerLists`.
- Escapes.Escape: says nothing about the contents when the text does not fit.
- Help and details text, the HTTP text of responses, the command line, address filters and the debug requests: no hard property.
