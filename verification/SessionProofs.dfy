/** Results, disconnects, requests and periodic work keep the broker sane. */
module SessionProofs {
  import opened Connections
  import opened Deques
  import opened Names
  import opened BrokerState
  import opened Common
  import opened References
  import opened Ledger
  import opened Invariants
  import opened ClientRequests
  import opened WorkerRequests
  import opened CallProofs
  import opened WorkerProofs
  import opened Sessions

  // Results

  lemma AnsweredOk(v: Conn, r: Reply)
    requires ConnOk(v) && InCall(v) && !v.closed && ClosesCall(r)
    ensures ConnOk(Served(v, Net, r)) && v.client.None?
  {
    hide Closed;
    ClosedAppend(v.out, r);
  }

  /** An entry of `wait` points at a client that waits. */
  lemma EntryWaits(s: State, id: string)
    requires Balanced(s, multiset{}, multiset{}) && id in s.wait
    ensures var c := s.wait[id];
      && c in s.conns && (!s.conns[c].closed ==> InCall(s.conns[c]))
      && s.conns[c].id == id && id != ""
  {
    hide Wf, Exact, ItemsOk, Opened, Grounded, ConnsLive;
    WaitingCounted(s.wait, id);
  }

  lemma AnswerBalanced(s: State, c: Connect, r: Reply)
    requires Balanced(s, multiset{}, multiset{c}) && c in s.conns && !s.conns[c].closed
    requires InCall(s.conns[c]) && s.conns[c].client.None?
    ensures Balanced(Upd(s, c, Served(s.conns[c], Net, r)), multiset{}, multiset{})
  {
    hide Balanced;
    BalancedRelease(s, c, Served(s.conns[c], Net, r), multiset{}, multiset{c});
    assert multiset{c} - multiset{c} == multiset{};
  }

  lemma SendThenStatus(s: State, c: Connect, r: Reply, status: Status)
    requires c in s.conns && !s.conns[c].closed
    ensures SetStatus(Send(s, c, r), c, status) == Upd(s, c, Served(s.conns[c], status, r))
    ensures Send(SetStatus(s, c, status), c, r) == Upd(s, c, Served(s.conns[c], status, r))
  {
    StatusThenSend(s, c, r, status);
    hide Upd;
    UpdHere(s, c, Told(s.conns[c], r));
    UpdTwice(s, c, Told(s.conns[c], r), Served(s.conns[c], status, r));
  }

  lemma StatusThenSend(s: State, c: Connect, r: Reply, status: Status)
    requires c in s.conns && !s.conns[c].closed
    ensures Send(SetStatus(s, c, status), c, r) == Upd(s, c, Served(s.conns[c], status, r))
  {
    hide Upd;
    UpdHere(s, c, s.conns[c].(status := status));
    UpdTwice(s, c, s.conns[c].(status := status), Served(s.conns[c], status, r));
  }

  lemma UpdHere(s: State, c: Connect, v: Conn)
    ensures c in Upd(s, c, v).conns && Upd(s, c, v).conns[c] == v
  {
  }

  /** worker_result touches nobody but the client it answers, unless that client has gone. */
  lemma WorkerResultSane(s: State, id: string, body: Option<string>, x: Connect)
    requires SaneBut(s, x) && Wf(s) && !s.conns[x].closed && !InCall(s.conns[x])
    ensures var r := WorkerResult(s, id, body);
      && SaneBut(r.s, x) && r.s.conns[x] == s.conns[x]
      && r.code == (if id !in s.wait then -1 else if s.conns[s.wait[id]].closed then -2 else 0)
  {
    hide Balanced, ConnOk, Wf, Closed, Grounded, ConnsLive;
    if id in s.wait {
      EntryWaits(s, id);
      var c := s.wait[id];
      var one := multiset{c};
      BalancedWaitOut(s, id, multiset{}, multiset{});
      assert multiset{} + one == one && one - one == multiset{};
      var t := s.(wait := s.wait - {id});
      BalancedUnlink(t, c, one, one);
      var u := Unlink(t, c);
      UnlinkedConns(t, c);
      hide Unlink;
      var r := if body.Some? then AnswerWithId(id, body.value) else Unavailable;
      RelinkedOk(s.conns[c], s.conns[c].link - 1);
      if u.conns[c].closed {
        ForgiveClosed(u, c);
        return;
      }
      AnsweredOk(u.conns[c], r);
      AnswerBalanced(u, c, r);
      SendThenStatus(u, c, r, Net);
      hide Served;
    }
  }

  lemma UnlinkedConns(s: State, c: Connect)
    requires c in s.conns
    ensures Unlink(s, c).conns == s.conns[c := s.conns[c].(link := s.conns[c].link - 1)]
  {
  }

  /** A worker without ids that owes its client a result. */
  predicate Owing(v: Conn) {
    !v.closed && v.status == WorkerWaitResult && v.noid && v.client.Some? && Paired(v) && Settled(v)
  }

  lemma ServedClient(s: State, w: Connect)
    requires Balanced(s, multiset{}, multiset{}) && w in s.conns && Owing(s.conns[w])
    ensures var c := s.conns[w].client.value;
      c in s.conns && c != w && (!s.conns[c].closed ==> InCall(s.conns[c]))
  {
    ConnIsLive(s, w);
    hide Wf, Exact, ItemsOk, Opened, WaitOk, Grounded, ConnsLive;
    ServingCounted(s.conns, w);
  }

  lemma ServingCounted(conns: map<Connect, Conn>, w: Connect)
    requires w in conns && conns[w].status == WorkerWaitResult && conns[w].client.Some?
    ensures |Serving(conns, conns[w].client.value)| >= 1
  {
    assert w in Serving(conns, conns[w].client.value);
  }

  /** worker_result_noid always finds its client, tells it, and leaves the worker without one. */
  lemma WorkerResultNoidSane(s: State, w: Connect)
    requires SaneBut(s, w) && Wf(s) && Owing(s.conns[w])
    ensures var r := WorkerResultNoid(s, w);
      && SaneBut(r.s, w) && r.s.conns[w] == Released(s.conns[w])
      && r.code == (if s.conns[s.conns[w].client.value].closed then -2 else 0)
  {
    hide Balanced, ConnOk, Wf, Closed, Grounded, ConnsLive;
    var v := s.conns[w];
    var c := v.client.value;
    ServedClient(s, w);
    var one := multiset{c};
    BalancedUnserve(s, w, c, Released(v), multiset{}, multiset{});
    assert multiset{} + one == one && one - one == multiset{};
    var t := Upd(s, w, Released(v));
    BalancedUnlink(t, c, one, one);
    var u := Unlink(t, c);
    UnlinkedConns(t, c);
    hide Unlink, Owing;
    RelinkedOk(s.conns[c], s.conns[c].link - 1);
    if u.conns[c].closed {
      ForgiveClosed(u, c);
    } else {
      AnsweredOk(u.conns[c], Answer(v.body));
      AnswerBalanced(u, c, Answer(v.body));
      SendThenStatus(u, c, Answer(v.body), Net);
      hide Served;
    }
  }

  // Disconnect

  /** The state with c closed and out of the table. */
  function Gone(s: State, c: Connect): State
    requires c in s.conns
  {
    LeaveTable(SetClosed(s, c), c)
  }

  lemma ForgetCallSane(s: State, c: Connect)
    requires SaneBut(s, c) && Wf(s) && ConnOk(s.conns[c]) && !s.conns[c].closed && OwnEntry(s, c)
    ensures var t := ForgetCall(s, c);
      && Wf(t) && OnlyLinks(s, t)
      && Balanced(t, multiset{}, if t.wait == s.wait then multiset{} else multiset{c})
  {
    hide Balanced, ConnOk, Wf, Closed, Grounded, ConnsLive;
    var v := s.conns[c];
    if v.status == ClientWaitResult && v.id != "" && v.id in s.wait {
      var one := multiset{c};
      BalancedWaitOut(s, v.id, multiset{}, multiset{});
      assert multiset{} + one == one && one - one == multiset{};
      var t := s.(wait := s.wait - {v.id});
      BalancedUnlink(t, c, one, one);
      UnlinkOnly(t, c);
    }
  }

  /** The account when c is about to be closed: at most its own call is in hand. */
  ghost predicate Leaving(s: State, c: Connect) {
    && (Balanced(s, multiset{}, multiset{}) || Balanced(s, multiset{}, multiset{c}))
    && c in s.conns && !s.conns[c].closed && s.conns[c].client.None? && s.conns[c].item.None?
    && s.conns[c].status != Migration
    && (forall x :: x in s.conns && x != c ==> ConnOk(s.conns[x]))
  }

  lemma CloseLeaving(s: State, c: Connect, owed: multiset<Connect>)
    requires Balanced(s, multiset{}, owed) && owed <= multiset{c}
    requires c in s.conns && !s.conns[c].closed && s.conns[c].client.None?
    ensures Balanced(Unlink(Gone(s, c), c), multiset{}, multiset{})
  {
    hide Balanced;
    BalancedClose(s, c, owed);
    var t := Gone(s, c);
    assert t == Upd(s, c, s.conns[c].(closed := true)).(table := s.table - {c});
    BalancedUnlink(t, c, multiset{c}, owed);
    assert multiset{c} - multiset{c} == multiset{};
    UnlinkedConns(t, c);
    Forgive(Unlink(t, c), c, owed);
  }

  lemma Forgive(s: State, x: Connect, owed: multiset<Connect>)
    requires Balanced(s, multiset{}, owed) && owed <= multiset{x} && x in s.conns && s.conns[x].closed
    ensures Balanced(s, multiset{}, multiset{})
  {
    hide Wf, Exact, WaitOk, ItemsOk, Opened, Grounded, ConnsLive;
    assert forall y :: y != x ==> owed[y] == 0;
  }

  lemma GoneOk(v: Conn)
    requires v.client.None? && v.item.None? && v.status != Migration
    ensures ConnOk(v.(closed := true, link := v.link - 1))
  {
  }

  lemma LeavingCloses(s: State, c: Connect)
    requires Leaving(s, c)
    ensures Sane(Unlink(Gone(s, c), c))
  {
    hide Balanced, ConnOk;
    var owed := if Balanced(s, multiset{}, multiset{}) then multiset{} else multiset{c};
    CloseLeaving(s, c, owed);
    GoneOk(s.conns[c]);
    UnlinkedConns(Gone(s, c), c);
    UpdTwice(s, c, s.conns[c].(closed := true), s.conns[c].(closed := true, link := s.conns[c].link - 1));
    hide Unlink;
  }

  lemma PopItemItem(s: State, c: Connect)
    requires SaneBut(s, c) && Wf(s)
    ensures SaneBut(PopItem(s, c), c) && Wf(PopItem(s, c))
    ensures PopItem(s, c).conns == s.conns[c := Unlisted(s.conns[c])] && PopItem(s, c).wait == s.wait
  {
    hide Wf, Balanced, ConnOk, PopItem, Grounded, ConnsLive;
    PopItemSane(s, c);
    PopItemWf(s, c);
    ConnIsLive(s, c);
    PoppedConns(s, c);
    PopWait(s, c);
    if s.conns[c].item.None? {
      assert s.conns[c := s.conns[c]] == s.conns;
    }
  }

  lemma UnlistedOk(v: Conn)
    requires ConnOk(v)
    ensures ConnOk(Unlisted(v)) && Unlisted(v).item.None?
  {
  }

  // The worker's client is told that the worker has gone.

  lemma PopWait(s: State, c: Connect)
    requires c in s.conns && (s.conns[c].item.Some? ==> s.conns[c].item.value < |s.lists|)
    ensures PopItem(s, c).wait == s.wait
  {
  }

  function ToldGone(v: Conn): Conn {
    if v.closed then v.(status := Net) else Served(v, Net, Unavailable)
  }

  lemma FailLinked(a: State, c: Connect)
    requires Wf(a) && c in a.conns && Owing(a.conns[c]) && a.conns[c].client.value in a.conns
    ensures FailServed(a, c) == Upd(a, a.conns[c].client.value, ToldGone(a.conns[a.conns[c].client.value]))
  {
    hide Wf, SameFrame, Grounded, ConnsLive;
    var d := a.conns[c].client.value;
    if !a.conns[d].closed {
      SendThenStatus(a, d, Unavailable, Net);
    }
  }

  lemma DropKnown(f: State, c: Connect)
    requires Wf(f) && c in f.conns && f.conns[c].client.Some? && f.conns[c].client.value in f.conns
    ensures DropClient(f, c) == Unlink(SetClient(f, c, None), f.conns[c].client.value)
  {
    hide Wf, SameFrame, Unlink, Grounded, ConnsLive;
  }

  lemma DropLinkedEnd(a: State, c: Connect)
    requires Wf(a) && c in a.conns && Owing(a.conns[c]) && a.conns[c].client.value in a.conns
    requires a.conns[c].client.value != c
    requires Wf(FailServed(a, c)) && FailServed(a, c).conns.Keys == a.conns.Keys
    ensures var d := a.conns[c].client.value;
      DropClient(FailServed(a, c), c) == Unlink(Upd2(a, c, a.conns[c].(client := None), d, ToldGone(a.conns[d])), d)
  {
    hide Wf, Grounded, ConnsLive;
    var d := a.conns[c].client.value;
    FailLinked(a, c);
    var f := FailServed(a, c);
    hide FailServed, ToldGone;
    assert f.conns[c] == a.conns[c];
    DropKnown(f, c);
    Upd2Swap(a, d, ToldGone(a.conns[d]), c, a.conns[c].(client := None));
  }

  lemma LinkedLeaves(a: State, c: Connect)
    requires SaneBut(a, c) && Wf(a) && Owing(a.conns[c]) && a.conns[c].item.None?
    ensures Leaving(DropClient(FailServed(a, c), c), c)
  {
    hide Balanced, ConnOk, Closed, Paired, Settled, Wf, DropClient, FailServed, Unlink, ToldGone, Grounded, ConnsLive;
    var d := a.conns[c].client.value;
    ServedClient(a, c);
    var v := a.conns[c].(client := None);
    FailServedFrame(a, c);
    DropLinkedEnd(a, c);
    UnserveTold(a, c);
    var b := Upd(a, c, v);
    assert b.conns[d] == a.conns[d];
    ToldBalanced(b, d, ToldGone(a.conns[d]));
    var u := Upd(b, d, ToldGone(a.conns[d]));
    UnlinkedConns(u, d);
    var told := ToldGone(a.conns[d]);
    LeavingAs(a, Unlink(u, d), c, v, d, told.(link := told.link - 1));
  }

  lemma UnserveTold(a: State, c: Connect)
    requires SaneBut(a, c) && Owing(a.conns[c])
    ensures var d := a.conns[c].client.value;
      Balanced(Upd(a, c, a.conns[c].(client := None)), multiset{d}, multiset{d})
  {
    hide Balanced, ConnOk, Closed, Paired, Settled;
    var one := multiset{a.conns[c].client.value};
    BalancedUnserve(a, c, a.conns[c].client.value, a.conns[c].(client := None), multiset{}, multiset{});
    assert multiset{} + one == one;
  }

  lemma FailServedFrame(a: State, c: Connect)
    requires Wf(a) && c in a.conns
    ensures SameFrame(a, FailServed(a, c))
  {
  }

  /** The client of a lost worker is told (unless it is gone too), and the pointer to it is dropped. */
  lemma ToldBalanced(b: State, d: Connect, told: Conn)
    requires Balanced(b, multiset{d}, multiset{d}) && d in b.conns && told == ToldGone(b.conns[d])
    requires ConnOk(b.conns[d]) && (!b.conns[d].closed ==> InCall(b.conns[d]))
    ensures Balanced(Unlink(Upd(b, d, told), d), multiset{}, multiset{})
    ensures ConnOk(told.(link := told.link - 1))
  {
    hide Balanced, Closed;
    var one := multiset{d};
    assert one - one == multiset{};
    if b.conns[d].closed {
      assert b.conns[d].client.None?;
      BalancedUpdClosed(b, d, told, one, one);
      BalancedUnlink(Upd(b, d, told), d, one, one);
      UnlinkedConns(Upd(b, d, told), d);
      Forgive(Unlink(Upd(b, d, told), d), d, one);
    } else {
      AnsweredOk(b.conns[d], Unavailable);
      BalancedRelease(b, d, told, one, one);
      BalancedUnlink(Upd(b, d, told), d, one, multiset{});
      RelinkedOk(told, told.link - 1);
    }
  }

  lemma LeavingAs(a: State, t: State, c: Connect, v: Conn, d: Connect, vd: Conn)
    requires SaneBut(a, c) && Balanced(t, multiset{}, multiset{}) && c != d
    requires t.conns == a.conns[c := v][d := vd.(link := vd.link + 1)][d := vd]
    requires ConnOk(vd) && !v.closed && v.client.None? && v.item.None? && v.status in {Net, WorkerWaitResult}
    ensures Leaving(t, c)
  {
    hide Balanced, ConnOk;
  }

  /** The other ends: nobody served, or a client whose call is in `wait`. */
  lemma UnlinkedLeaves(a: State, c: Connect)
    requires SaneBut(a, c) && Wf(a) && ConnOk(a.conns[c]) && !a.conns[c].closed && a.conns[c].item.None?
    requires a.conns[c].failOnDisconnect && a.conns[c].status != WorkerWaitResult
    ensures Leaving(DropClient(FailServed(a, c), c), c)
  {
    hide Balanced, Closed;
    var v := a.conns[c];
    NotWaiting(a, c);
    if v.client.Some? {
      PointedLeaves(a, c);
    }
  }

  lemma PointedLeaves(a: State, c: Connect)
    requires SaneBut(a, c) && Wf(a) && !a.conns[c].closed && a.conns[c].item.None?
    requires a.conns[c].client.Some? && !a.conns[c].noid && a.conns[c].status == Net
    ensures Leaving(DropClient(FailServed(a, c), c), c)
  {
    hide Balanced, ConnOk, Closed;
    ConnIsLive(a, c);
    var d := a.conns[c].client.value;
    FailServedFrame(a, c);
    WorkerResultSane(a, a.conns[d].id, None, c);
    var f := FailServed(a, c);
    assert f == WorkerResult(a, a.conns[d].id, None).s by { hide WorkerResult; }
    hide FailServed, WorkerResult;
    DropKnown(f, c);
    hide DropClient, Wf, SameFrame, Grounded, ConnsLive;
    UnpointLeaves(f, c, d);
  }

  lemma UnpointLeaves(f: State, c: Connect, d: Connect)
    requires SaneBut(f, c) && !f.conns[c].closed && f.conns[c].item.None? && f.conns[c].status == Net
    requires f.conns[c].client == Some(d) && d in f.conns
    ensures Leaving(Unlink(SetClient(f, c, None), d), c)
  {
    hide Balanced, ConnOk, Closed;
    var one := multiset{d};
    BalancedUnpoint(f, c, d, f.conns[c].(client := None), multiset{}, multiset{});
    assert multiset{} + one == one && one - one == multiset{};
    var b := SetClient(f, c, None);
    BalancedUnlink(b, d, one, multiset{});
    UnlinkedConns(b, d);
    hide Unlink;
    if d != c {
      RelinkedOk(b.conns[d], b.conns[d].link - 1);
    }
  }

  // Marking c closed first or last makes no difference.

  /** What losing a link does once the count is updated. */
  function Counted(t: State, c: Connect, n: int): State {
    if n == 0 then t.(dead := t.dead + [c]) else if n < 0 then t.(fault := true) else t
  }

  lemma UnlinkIs(s: State, c: Connect)
    requires c in s.conns
    ensures Unlink(s, c) == Counted(Upd(s, c, s.conns[c].(link := s.conns[c].link - 1)), c, s.conns[c].link - 1)
  {
  }

  lemma CountedClosed(t: State, c: Connect, x: Connect, n: int)
    requires c in t.conns
    ensures Counted(SetClosed(t, c), x, n) == SetClosed(Counted(t, x, n), c)
  {
  }

  lemma UpdHolds(s: State, x: Connect, v: Conn, c: Connect)
    requires c in s.conns
    ensures c in Upd(s, x, v).conns
  {
  }

  lemma SetClosedIs(s: State, c: Connect)
    requires c in s.conns
    ensures SetClosed(s, c).conns == s.conns[c := s.conns[c].(closed := true)]
  {
  }

  lemma ClosedUnlink(s: State, c: Connect, x: Connect)
    requires c in s.conns && x in s.conns
    ensures Unlink(SetClosed(s, c), x) == SetClosed(Unlink(s, x), c)
  {
    hide Unlink, Counted, SetClosed, Upd;
    var vx := s.conns[x].(link := s.conns[x].link - 1);
    SetClosedIs(s, c);
    UnlinkIs(s, x);
    UnlinkIs(SetClosed(s, c), x);
    UpdHolds(s, x, vx, c);
    CountedClosed(Upd(s, x, vx), c, x, vx.link);
    if c == x {
      ClosedOwn(s, c, vx);
    } else {
      ClosedUpd(s, c, x, vx);
    }
  }

  lemma ClosedUpd(s: State, c: Connect, x: Connect, v: Conn)
    requires c in s.conns && x in s.conns && c != x
    ensures Upd(SetClosed(s, c), x, v) == SetClosed(Upd(s, x, v), c)
  {
    Upd2Swap(s, c, s.conns[c].(closed := true), x, v);
  }

  lemma ClosedOwn(s: State, c: Connect, v: Conn)
    requires c in s.conns
    ensures Upd(SetClosed(s, c), c, v.(closed := true)) == SetClosed(Upd(s, c, v), c)
  {
    UpdTwice(s, c, s.conns[c].(closed := true), v.(closed := true));
    UpdTwice(s, c, v, v.(closed := true));
  }

  lemma ClosedPop(s: State, c: Connect)
    requires c in s.conns && (s.conns[c].item.Some? ==> s.conns[c].item.value < |s.lists|)
    ensures PopItem(SetClosed(s, c), c) == SetClosed(PopItem(s, c), c)
  {
    hide Without, Unlink;
    if s.conns[c].item.Some? {
      var q := s.conns[c].item.value;
      ClosedOwn(s, c, s.conns[c].(item := None));
      var a := Upd(s, c, s.conns[c].(item := None)).(lists := s.lists[q := Without(s.lists[q], c)]);
      ClosedUnlink(a, c, c);
    }
  }

  lemma ClosedForget(s: State, c: Connect)
    requires Wf(s) && c in s.conns && Wf(SetClosed(s, c))
    ensures ForgetCall(SetClosed(s, c), c) == SetClosed(ForgetCall(s, c), c)
  {
    hide Wf, SameFrame, Unlink, Grounded, ConnsLive;
    var v := s.conns[c];
    if v.status == ClientWaitResult && v.id != "" && v.id in s.wait {
      ClosedUnlink(s.(wait := s.wait - {v.id}), c, c);
    }
  }

  lemma ClosedResult(s: State, c: Connect, id: string)
    requires Wf(s) && c in s.conns && Wf(SetClosed(s, c)) && (id in s.wait ==> s.wait[id] != c && s.wait[id] in s.conns)
    ensures WorkerResult(SetClosed(s, c), id, None).s == SetClosed(WorkerResult(s, id, None).s, c)
  {
    hide Wf, SameFrame, Grounded, ConnsLive;
    if id in s.wait {
      var d := s.wait[id];
      var t := s.(wait := s.wait - {id});
      ClosedUnlink(t, c, d);
      var u := Unlink(t, d);
      UnlinkedConns(t, d);
      hide Unlink;
      if !u.conns[d].closed {
        SendThenStatus(u, d, Unavailable, Net);
        SendThenStatus(SetClosed(u, c), d, Unavailable, Net);
        ClosedUpd(u, c, d, Served(u.conns[d], Net, Unavailable));
      }
    }
  }

  lemma ClosedDrop(s: State, c: Connect)
    requires Wf(s) && c in s.conns && Wf(SetClosed(s, c))
    requires s.conns[c].client.Some? ==> s.conns[c].client.value in s.conns
    ensures DropClient(SetClosed(s, c), c) == SetClosed(DropClient(s, c), c)
  {
    hide Wf, SameFrame, Unlink, Grounded, ConnsLive;
    if s.conns[c].client.Some? {
      ClosedOwn(s, c, s.conns[c].(client := None));
      ClosedUnlink(SetClient(s, c, None), c, s.conns[c].client.value);
    }
  }

  lemma ClosedFail(s: State, c: Connect)
    requires SaneBut(s, c) && Wf(s) && Wf(SetClosed(s, c)) && ConnOk(s.conns[c]) && !s.conns[c].closed
    requires s.conns[c].failOnDisconnect
    ensures FailServed(SetClosed(s, c), c) == SetClosed(FailServed(s, c), c)
  {
    hide Wf, SameFrame, Balanced, Closed, Settled, Grounded, ConnsLive;
    var v := s.conns[c];
    if v.noid {
      if v.status == WorkerWaitResult {
        ServedClient(s, c);
        var d := v.client.value;
        FailLinked(s, c);
        ClosedFailLinked(s, c);
        ClosedUpd(s, c, d, ToldGone(s.conns[d]));
      }
    } else if v.client.Some? {
      ConnIsLive(s, c);
      NotWaiting(s, c);
      var id := s.conns[v.client.value].id;
      if id in s.wait {
        EntryWaits(s, id);
      }
      ClosedResult(s, c, id);
    }
  }

  lemma ClosedFailLinked(s: State, c: Connect)
    requires Wf(s) && c in s.conns && Wf(SetClosed(s, c)) && s.conns[c].noid && s.conns[c].status == WorkerWaitResult
    requires s.conns[c].client.Some? && s.conns[c].client.value in s.conns && s.conns[c].client.value != c
    ensures var d := s.conns[c].client.value;
      FailServed(SetClosed(s, c), c) == Upd(SetClosed(s, c), d, ToldGone(s.conns[d]))
  {
    hide Wf, SameFrame, Grounded, ConnsLive;
    var d := s.conns[c].client.value;
    var a := SetClosed(s, c);
    assert a.conns[d] == s.conns[d] && a.conns[c].client == Some(d);
    assert a.conns[c].noid && a.conns[c].status == WorkerWaitResult;
    hide SetClosed;
    if !a.conns[d].closed {
      SendThenStatus(a, d, Unavailable, Net);
    }
  }

  /** After the item and the own call are dropped, c still is what it was otherwise. */
  predicate SameDuties(v: Conn, u: Conn) {
    Core(u) == Core(v).(item := None)
  }

  lemma DutiesOk(v: Conn, u: Conn)
    requires SameDuties(v, u)
    ensures ConnOk(v) ==> ConnOk(u)
    ensures u.closed == v.closed && u.item.None? && u.client == v.client && u.failOnDisconnect == v.failOnDisconnect
    ensures u.status == v.status && u.noid == v.noid && u.id == v.id && u.nloop == v.nloop
  {
    assert Core(u) == Core(v).(item := None);
  }

  ghost predicate Forgotten(s: State, c: Connect, a: State) {
    && Wf(a) && c in s.conns && c in a.conns && SameDuties(s.conns[c], a.conns[c])
    && (forall x :: x in a.conns && x != c ==> ConnOk(a.conns[x]))
    && Balanced(a, multiset{}, if a.wait == s.wait then multiset{} else multiset{c})
    && (s.conns[c].status != ClientWaitResult ==> a.wait == s.wait)
  }

  lemma ForgottenSane(s: State, c: Connect)
    requires Sane(s) && Wf(s) && c in s.conns && !s.conns[c].closed && OwnEntry(s, c)
    ensures Forgotten(s, c, Forget(s, c))
  {
    hide Balanced, ConnOk, Wf, PopItem, Grounded, ConnsLive;
    ConnIsLive(s, c);
    PopItemItem(s, c);
    var p := PopItem(s, c);
    UnlistedOk(s.conns[c]);
    UnlistedCore(s.conns[c]);
    assert OwnEntry(p, c);
    ForgetCallSane(p, c);
    hide ForgetCall, OnlyLinks;
    var a := ForgetCall(p, c);
    OnlyLinksAt(p, a, c);
    LinksOk(p, a, c);
    ForgetIdle(p, c);
  }

  lemma UnlistedCore(v: Conn)
    ensures Core(Unlisted(v)) == Core(v).(item := None)
    ensures Unlisted(v).id == v.id && Unlisted(v).status == v.status && Unlisted(v).closed == v.closed
  {
    if v.item.None? {
      assert Core(v) == v.(link := 0) && v.(link := 0).(item := None) == v.(link := 0);
    }
  }

  lemma OnlyLinksAt(s: State, t: State, c: Connect)
    requires OnlyLinks(s, t) && c in s.conns
    ensures c in t.conns && Core(t.conns[c]) == Core(s.conns[c]) && s.conns.Keys == t.conns.Keys
  {
  }

  lemma ForgetIdle(s: State, c: Connect)
    requires Wf(s) && c in s.conns
    ensures s.conns[c].status != ClientWaitResult ==> ForgetCall(s, c) == s
  {
  }

  lemma OnDisconnectLeaves(s: State, c: Connect)
    requires Sane(s) && Wf(s) && c in s.conns && !s.conns[c].closed && OwnEntry(s, c)
    ensures Leaving(OnDisconnect(s, c), c)
  {
    hide Balanced, ConnOk, Wf, Forget, FailServed, DropClient, Grounded, ConnsLive;
    ForgottenSane(s, c);
    var a := Forget(s, c);
    DutiesOk(s.conns[c], a.conns[c]);
    if a.conns[c].failOnDisconnect {
      FailingDoesNotWait(a.conns[c]);
      if a.conns[c].status == WorkerWaitResult {
        OwingIfWaiting(a.conns[c]);
        LinkedLeaves(a, c);
      } else {
        UnlinkedLeaves(a, c);
      }
    } else {
      NoFailNoClient(a.conns[c]);
    }
  }

  lemma FailingDoesNotWait(v: Conn)
    requires ConnOk(v) && !v.closed && v.failOnDisconnect
    ensures !InCall(v)
  {
  }

  lemma OwingIfWaiting(v: Conn)
    requires ConnOk(v) && !v.closed && v.status == WorkerWaitResult
    ensures Owing(v)
  {
  }

  lemma NoFailNoClient(v: Conn)
    requires ConnOk(v) && !v.closed && !v.failOnDisconnect
    ensures v.client.None? && v.status != Migration
  {
  }

  lemma ClosedOnDisconnect(s: State, c: Connect)
    requires Sane(s) && Wf(s) && c in s.conns && !s.conns[c].closed && OwnEntry(s, c) && Wf(SetClosed(s, c))
    ensures OnDisconnect(SetClosed(s, c), c) == SetClosed(OnDisconnect(s, c), c)
  {
    hide Balanced, ConnOk, Wf, PopItem, ForgetCall, FailServed, DropClient, Grounded, ConnsLive;
    ConnIsLive(s, c);
    ClosedPop(s, c);
    PopItemWf(s, c);
    var p := PopItem(s, c);
    SetClosedWf(p, c);
    ClosedForget(p, c);
    ForgottenSane(s, c);
    var a := Forget(s, c);
    hide Forget;
    DutiesOk(s.conns[c], a.conns[c]);
    SetClosedWf(a, c);
    if a.conns[c].failOnDisconnect {
      FailingDoesNotWait(a.conns[c]);
      ClosedFail(a, c);
      FailServedFrame(a, c);
      var f := FailServed(a, c);
      SetClosedWf(f, c);
      ConnIsLive(f, c);
      ClosedDrop(f, c);
    }
  }

  /** _close of a connection whose own entry, if any, is its own. */
  lemma DisconnectSane(s: State, c: Connect)
    requires Sane(s) && Wf(s) && c in s.conns && !s.conns[c].closed && OwnEntry(s, c)
    ensures Sane(Disconnect(s, c)) && c in Disconnect(s, c).conns && Disconnect(s, c).conns[c].closed
  {
    hide Balanced, ConnOk, Wf, OnDisconnect, Grounded, ConnsLive;
    SetClosedWf(s, c);
    ClosedOnDisconnect(s, c);
    OnDisconnectLeaves(s, c);
    var b := OnDisconnect(s, c);
    LeavingCloses(b, c);
    TableLast(SetClosed(b, c), c);
    StaysClosed(b, c);
  }

  lemma StaysClosed(b: State, c: Connect)
    requires c in b.conns
    ensures var t := LeaveTable(Unlink(SetClosed(b, c), c), c); c in t.conns && t.conns[c].closed
  {
  }

  lemma TableLast(s: State, c: Connect)
    requires c in s.conns
    ensures LeaveTable(Unlink(s, c), c) == Unlink(LeaveTable(s, c), c)
  {
  }

  // Requests

  /** At the start of a request a connection whose registration broke off is thrown out, and no other. */
  lemma BeginSane(s: State, c: Connect)
    requires Sane(s) && Wf(s) && c in s.conns && !s.conns[c].closed && Listens(s.conns[c]) && !s.conns[c].started
    ensures Sane(Begin(s, c)) && c in Begin(s, c).conns
    ensures Begin(s, c).conns[c].closed <==> s.conns[c].workerMode && s.conns[c].status == Net
    ensures !Begin(s, c).conns[c].closed ==> Begin(s, c).conns[c].started
  {
    hide Balanced, Closed, Wf, Grounded, ConnsLive;
    var v := s.conns[c];
    NotWaiting(s, c);
    if v.workerMode && v.status == Net {
      hide Sane, ConnOk, Disconnect;
      DisconnectSane(s, c);
    } else if v.status == WorkerWaitResult || v.workerMode {
      FreshOk(v);
      hide ConnOk;
      BalancedUpd(s, c, Fresh(v), multiset{}, multiset{});
      OneTouched(s, Upd(s, c, Fresh(v)), c, Fresh(v));
    } else {
      BeginIdle(s, c);
    }
  }

  lemma FreshOk(v: Conn)
    requires ConnOk(v) && !v.closed && (v.status == WorkerWaitResult || v.workerMode) && Listens(v)
    requires !(v.workerMode && v.status == Net)
    ensures ConnOk(Fresh(v)) && Quiet(v, Fresh(v))
  {
  }

  lemma FreshIdleOk(v: Conn)
    requires ConnOk(v) && !v.closed && v.status == Net && !v.workerMode
    ensures ConnOk(Fresh(v).(failOnDisconnect := false, noid := false, client := None))
  {
  }

  /** The last worker's pointer to a client that was answered by somebody else is dropped. */
  lemma BeginIdle(s: State, c: Connect)
    requires Sane(s) && Wf(s) && c in s.conns && !s.conns[c].closed && s.conns[c].status == Net && Unawaited(s.wait, c)
    requires !s.conns[c].workerMode
    ensures Sane(Begin(s, c)) && Begin(s, c).conns[c].started && !Begin(s, c).conns[c].closed
  {
    hide Balanced, Closed, Wf, Grounded, ConnsLive;
    var v := s.conns[c];
    ConnIsLive(s, c);
    FreshIdleOk(v);
    hide ConnOk;
    var f := Fresh(v).(failOnDisconnect := false, noid := false);
    BalancedUpd(s, c, f, multiset{}, multiset{});
    UpdWf(s, c, f);
    var t := Upd(s, c, f);
    if v.client.Some? {
      var d := v.client.value;
      DropKnown(t, c);
      hide DropClient;
      var one := multiset{d};
      BalancedUnpoint(t, c, d, f.(client := None), multiset{}, multiset{});
      assert multiset{} + one == one && one - one == multiset{};
      UpdTwice(s, c, f, f.(client := None));
      var u := Upd(s, c, f.(client := None));
      BalancedUnlink(u, d, one, multiset{});
      DroppedSane(s, c, d, f.(client := None));
    } else {
      OneTouched(s, t, c, f);
    }
  }

  lemma DroppedSane(s: State, c: Connect, d: Connect, v: Conn)
    requires Sane(s) && c in s.conns && d in s.conns && ConnOk(v) && v.started && !v.closed
    requires d in Upd(s, c, v).conns && Balanced(Unlink(Upd(s, c, v), d), multiset{}, multiset{})
    ensures var t := Unlink(Upd(s, c, v), d); Sane(t) && c in t.conns && t.conns[c].started && !t.conns[c].closed
  {
    hide Balanced, ConnOk, Unlink;
    var u := Upd(s, c, v);
    UnlinkedConns(u, d);
    RelinkedOk(u.conns[d], u.conns[d].link - 1);
  }
}
