/**
 What the deques hold: no worker entry beside a message it could take, messages in priority
 order, and every asynchronous job that was accepted and not yet handed over.
 */
module Order {
  import opened Connections
  import opened Deques
  import opened BrokerState
  import opened Common

  /** Entries belong to registered workers of the deque's own loop, each at most once. */
  predicate Registered(workers: Deques<Connect>, conns: map<Connect, Conn>) {
    && (forall q, l, i :: 0 <= q < |workers| && 0 <= l < |workers[q]| && 0 <= i < |workers[q][l]| ==>
          Entry(conns, workers[q][l][i], l))
    && (forall q, l, i, j :: 0 <= q < |workers| && 0 <= l < |workers[q]| && 0 <= i < j < |workers[q][l]| ==>
          workers[q][l][i] != workers[q][l][j])
  }

  predicate Entry(conns: map<Connect, Conn>, w: Connect, l: nat) {
    w in conns && conns[w].connectionId != "" && conns[w].nloop == l
  }

  /** Whatever their state, no entry and no message of the same queue suit each other. */
  predicate Unmatched(workers: Deques<Connect>, clients: Deques<Msg>, conns: map<Connect, Conn>) {
    forall q, l, i, k, j ::
      && 0 <= q < |workers| && 0 <= l < |workers[q]| && 0 <= i < |workers[q][l]|
      && q < |clients| && 0 <= k < |clients[q]| && 0 <= j < |clients[q][k]|
      ==> Apart(conns, workers[q][l][i], clients[q][k][j])
  }

  predicate Apart(conns: map<Connect, Conn>, w: Connect, m: Msg) {
    w in conns ==> !Suits(m.required, conns[w].connectionId)
  }

  /** Higher priority first, earlier arrival first among equals. */
  predicate Precedes(a: Msg, b: Msg) {
    a.priority > b.priority || (a.priority == b.priority && a.stamp < b.stamp)
  }

  predicate SortedDeque(d: seq<Msg>, stamp: nat) {
    && (forall i, j :: 0 <= i < j < |d| ==> Precedes(d[i], d[j]))
    && (forall i :: 0 <= i < |d| ==> d[i].stamp < stamp)
  }

  predicate Sorted(clients: Deques<Msg>, stamp: nat) {
    forall q, l :: 0 <= q < |clients| && 0 <= l < |clients[q]| ==> SortedDeque(clients[q][l], stamp)
  }

  /** The asynchronous jobs among some messages. */
  function Jobs(ms: seq<Msg>): multiset<Job> {
    if ms == [] then multiset{}
    else (if ms[0].conn.None? then multiset{JobOf(ms[0])} else multiset{}) + Jobs(ms[1..])
  }

  ghost predicate Accounted(s: State) {
    s.accepted == Jobs(Flat(s.clients)) + s.handed
  }

  /** No two jobs share a stamp, and stamps to come are unused. */
  predicate Stamped(accepted: multiset<Job>, stamp: nat) {
    forall job :: job in accepted ==> accepted[job] == 1 && job.stamp < stamp
  }

  /** What was handed over is on the send buffers, those of deleted connections included, and nothing else is. */
  ghost predicate Delivered(conns: map<Connect, Conn>, buried: multiset<Job>, handed: multiset<Job>) {
    handed == Carried(conns) + buried
  }

  ghost predicate Orderly(s: State) {
    && Registered(s.workers, s.conns)
    && Unmatched(s.workers, s.clients, s.conns)
    && Sorted(s.clients, s.stamp)
    && Accounted(s)
    && Stamped(s.accepted, s.stamp)
    && Delivered(s.conns, s.buried, s.handed)
  }

  // Counting jobs

  lemma {:induction false} JobsAppend(a: seq<Msg>, b: seq<Msg>)
    ensures Jobs(a + b) == Jobs(a) + Jobs(b)
  {
    if a == [] {
      assert a + b == b;
    } else {
      assert (a + b)[1..] == a[1..] + b;
      JobsAppend(a[1..], b);
    }
  }

  lemma JobsOfFour(a: seq<Msg>, b: seq<Msg>, c: seq<Msg>, d: seq<Msg>)
    ensures Jobs(a + (b + c) + d) == Jobs(a) + Jobs(b) + Jobs(c) + Jobs(d)
  {
    JobsAppend(a + (b + c), d);
    JobsAppend(a, b + c);
    JobsAppend(b, c);
  }

  lemma OneJob(m: Msg)
    ensures Jobs([m]) == (if m.conn.None? then multiset{JobOf(m)} else multiset{})
  {
    assert [m][1..] == [];
  }

  lemma JobsRemoved(ds: Deques<Msg>, q: nat, l: nat, i: nat)
    requires q < |ds| && l < |ds[q]| && i < |ds[q][l]|
    ensures Jobs(Flat(SetAt(ds, q, l, RemoveAt(ds[q][l], i)))) + Jobs([ds[q][l][i]]) == Jobs(Flat(ds))
  {
    var d, x := ds[q][l], ds[q][l][i];
    var pre, post := FlatSplit(ds, q, l, RemoveAt(d, i));
    assert d == d[..i] + ([x] + d[i + 1..]);
    JobsOfFour(pre, d[..i], d[i + 1..], post);
    JobsOfFour(pre, d[..i], [x] + d[i + 1..], post);
    JobsAppend([x], d[i + 1..]);
    hide Jobs;
  }

  lemma JobsInserted(ds: Deques<Msg>, q: nat, l: nat, i: nat, x: Msg)
    requires q < |ds| && l < |ds[q]| && i <= |ds[q][l]|
    ensures Jobs(Flat(SetAt(ds, q, l, InsertAt(ds[q][l], i, x)))) == Jobs(Flat(ds)) + Jobs([x])
  {
    var d := ds[q][l];
    var pre, post := FlatSplit(ds, q, l, InsertAt(d, i, x));
    assert d == d[..i] + d[i..];
    assert InsertAt(d, i, x) == d[..i] + ([x] + d[i..]);
    JobsOfFour(pre, d[..i], d[i..], post);
    JobsOfFour(pre, d[..i], [x] + d[i..], post);
    JobsAppend([x], d[i..]);
    hide Jobs;
  }

  // Removal and insertion

  lemma RemoveSorted(d: seq<Msg>, i: nat, stamp: nat)
    requires SortedDeque(d, stamp) && i < |d|
    ensures SortedDeque(RemoveAt(d, i), stamp)
  {
  }

  lemma InsertSorted(d: seq<Msg>, i: nat, m: Msg, stamp: nat)
    requires SortedDeque(d, stamp) && i <= |d| && m.stamp == stamp
    requires forall k :: 0 <= k < i ==> m.priority <= d[k].priority
    requires forall k :: i <= k < |d| ==> d[k].priority < m.priority
    ensures SortedDeque(InsertAt(d, i, m), stamp + 1)
  {
    var e := InsertAt(d, i, m);
    forall x, y | 0 <= x < y < |e| ensures Precedes(e[x], e[y]) {
      assert e[x] == (if x < i then d[x] else if x == i then m else d[x - 1]);
      assert e[y] == (if y < i then d[y] else if y == i then m else d[y - 1]);
    }
  }

  lemma SetSorted(clients: Deques<Msg>, q: nat, l: nat, d: seq<Msg>, stamp: nat, stamp': nat)
    requires Sorted(clients, stamp) && q < |clients| && l < |clients[q]| && stamp <= stamp' && SortedDeque(d, stamp')
    ensures Sorted(SetAt(clients, q, l, d), stamp')
  {
    var t := SetAt(clients, q, l, d);
    forall q', l' | 0 <= q' < |t| && 0 <= l' < |t[q']| ensures SortedDeque(t[q'][l'], stamp') {
      assert (q' == q && l' == l) || t[q'][l'] == clients[q'][l'];
    }
  }

  lemma RemoveEntry(workers: Deques<Connect>, clients: Deques<Msg>, conns: map<Connect, Conn>, q: nat, l: nat, i: nat)
    requires Registered(workers, conns) && Unmatched(workers, clients, conns)
    requires q < |workers| && l < |workers[q]| && i < |workers[q][l]|
    ensures var t := SetAt(workers, q, l, RemoveAt(workers[q][l], i));
      Registered(t, conns) && Unmatched(t, clients, conns)
  {
    hide Entry, Apart;
  }

  lemma RemoveMessage(workers: Deques<Connect>, clients: Deques<Msg>, conns: map<Connect, Conn>, q: nat, l: nat, i: nat)
    requires Unmatched(workers, clients, conns)
    requires q < |clients| && l < |clients[q]| && i < |clients[q][l]|
    ensures Unmatched(workers, SetAt(clients, q, l, RemoveAt(clients[q][l], i)), conns)
  {
    hide Entry, Apart;
  }

  // Handing over

  /** Any buffer can be counted first. */
  lemma {:induction false} CarriedPick(conns: map<Connect, Conn>, c: Connect)
    requires c in conns
    ensures Carried(conns) == Tasks(conns[c].out) + Carried(conns - {c})
    decreases |conns|
  {
    hide Tasks;
    var d :| d in conns && Carried(conns) == Tasks(conns[d].out) + Carried(conns - {d});
    if c != d {
      CarriedPick(conns - {d}, c);
      CarriedPick(conns - {c}, d);
      assert conns - {d} - {c} == conns - {c} - {d};
    }
  }

  lemma CarriedUpd(conns: map<Connect, Conn>, c: Connect, v: Conn)
    requires c in conns
    ensures Carried(conns[c := v]) + Tasks(conns[c].out) == Carried(conns) + Tasks(v.out)
  {
    hide Tasks, Carried;
    CarriedPick(conns, c);
    CarriedPick(conns[c := v], c);
    assert conns[c := v] - {c} == conns - {c};
  }

  lemma CarriedNew(conns: map<Connect, Conn>, c: Connect, v: Conn)
    requires c !in conns
    ensures Carried(conns[c := v]) == Carried(conns) + Tasks(v.out)
  {
    hide Tasks, Carried;
    CarriedPick(conns[c := v], c);
    assert conns[c := v] - {c} == conns;
  }

  lemma {:induction false} CarriedSame(conns: map<Connect, Conn>, left: map<Connect, Conn>)
    requires conns.Keys == left.Keys && forall c :: c in conns ==> Tasks(left[c].out) == Tasks(conns[c].out)
    ensures Carried(left) == Carried(conns)
    decreases |conns|
  {
    hide Tasks;
    if conns != map[] {
      var c :| c in conns;
      CarriedPick(conns, c);
      CarriedPick(left, c);
      CarriedSame(conns - {c}, left - {c});
    } else {
      assert left == map[];
    }
  }

  lemma AmongLess(conns: map<Connect, Conn>, some: set<Connect>, c: Connect)
    requires c in conns
    ensures Among(conns - {c}, some) == Among(conns, some) - {c}
    ensures conns - {c} - some == conns - some - {c}
    ensures if c in some then c in Among(conns, some) && conns - some - {c} == conns - some
            else c in conns - some && Among(conns, some) - {c} == Among(conns, some)
    ensures c in some ==> Among(conns, some)[c] == conns[c]
    ensures c !in some ==> (conns - some)[c] == conns[c]
  {
  }

  /** Some connections go, and the rest stay. */
  lemma {:induction false} CarriedSplit(conns: map<Connect, Conn>, gone: set<Connect>)
    ensures Carried(conns) == Carried(Among(conns, gone)) + Carried(conns - gone)
    decreases |conns|
  {
    hide Tasks, Carried, Among;
    if conns == map[] {
      NoneAmong(conns, gone);
    } else {
      var c :| c in conns;
      AmongLess(conns, gone, c);
      CarriedPick(conns, c);
      CarriedSplit(conns - {c}, gone);
      if c in gone {
        CarriedPick(Among(conns, gone), c);
      } else {
        CarriedPick(conns - gone, c);
      }
    }
  }

  lemma NoneAmong(none: map<Connect, Conn>, some: set<Connect>)
    requires none == map[]
    ensures Among(none, some) == none && none - some == none && Carried(none) == multiset{}
  {
  }

  /** A job goes to one send buffer. */
  lemma HandOver(conns: map<Connect, Conn>, buried: multiset<Job>, handed: multiset<Job>, w: Connect, v: Conn, job: Job)
    requires Delivered(conns, buried, handed) && w in conns
    requires Tasks(v.out) == Tasks(conns[w].out) + multiset{job}
    ensures Delivered(conns[w := v], buried, handed + multiset{job})
  {
    hide Tasks, Carried;
    CarriedUpd(conns, w, v);
    Cancel(Carried(conns[w := v]), Carried(conns) + multiset{job}, Tasks(conns[w].out));
  }

  lemma Cancel(a: multiset<Job>, b: multiset<Job>, c: multiset<Job>)
    requires a + c == b + c
    ensures a == b
  {
    assert a == a + c - c;
  }

  /** This buffer, and no other, has the job, and has it once. */
  predicate OnlyOn(conns: map<Connect, Conn>, c: Connect, job: Job) {
    && c in conns && Tasks(conns[c].out)[job] == 1
    && forall d :: d in conns && d != c ==> job !in Tasks(conns[d].out)
  }

  lemma CarriedNone(conns: map<Connect, Conn>, job: Job)
    requires job !in Carried(conns)
    ensures forall c :: c in conns ==> job !in Tasks(conns[c].out)
  {
    hide Tasks, Carried;
    forall c | c in conns ensures job !in Tasks(conns[c].out) {
      CarriedPick(conns, c);
    }
  }

  lemma {:induction false} CarriedOnce(conns: map<Connect, Conn>, job: Job) returns (c: Connect)
    requires Carried(conns)[job] == 1
    ensures OnlyOn(conns, c, job)
    decreases |conns|
  {
    hide Tasks;
    c :| c in conns && Carried(conns) == Tasks(conns[c].out) + Carried(conns - {c});
    var rest := conns - {c};
    if job in Tasks(conns[c].out) {
      CarriedNone(rest, job);
      forall d | d in conns && d != c ensures job !in Tasks(conns[d].out) {
        assert d in rest && rest[d] == conns[d];
      }
    } else {
      var e := CarriedOnce(rest, job);
      forall d | d in conns && d != e ensures job !in Tasks(conns[d].out) {
        assert d != c ==> d in rest && rest[d] == conns[d];
      }
      c := e;
    }
  }

  lemma FreshIsNotHanded(s: State, job: Job)
    requires Accounted(s) && Stamped(s.accepted, s.stamp) && job.stamp >= s.stamp
    ensures job !in s.handed && job !in s.accepted
  {
    hide Jobs, Flat;
    assert s.accepted[job] >= s.handed[job];
  }

  lemma StampNext(accepted: multiset<Job>, stamp: nat, job: Job)
    requires Stamped(accepted, stamp) && job !in accepted && job.stamp == stamp
    ensures Stamped(accepted + multiset{job}, stamp + 1) && Stamped(accepted, stamp + 1)
  {
  }
}
