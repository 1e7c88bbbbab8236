/** Whom the broker tells that a worker has gone. */
module Departures {
  import opened Connections
  import opened Deques
  import opened BrokerState
  import opened Common
  import opened References
  import opened Ledger
  import opened Invariants
  import opened Sessions
  import opened SessionProofs
  import WorkerProofs
  import LifeProofs

  /** No other connection hears anything. */
  ghost predicate Unheard(s: State, t: State, w: Connect) {
    && s.conns.Keys == t.conns.Keys
    && forall x :: x in s.conns && x != w ==> Heard(s.conns[x], t.conns[x], [])
  }

  predicate Heard(u: Conn, v: Conn, news: seq<Reply>) {
    v.out == u.out + news && v.closed == u.closed && v.id == u.id
  }

  lemma UnheardTrans(s: State, t: State, u: State, w: Connect)
    requires Unheard(s, t, w) && Unheard(t, u, w)
    ensures Unheard(s, u, w)
  {
    forall x | x in s.conns && x != w ensures Heard(s.conns[x], u.conns[x], []) {
      assert Heard(s.conns[x], t.conns[x], []) && Heard(t.conns[x], u.conns[x], []);
    }
  }

  lemma OwnUnheard(s: State, w: Connect, v: Conn)
    requires w in s.conns
    ensures Unheard(s, Upd(s, w, v), w)
  {
  }

  lemma SameUnheard(s: State, t: State, w: Connect)
    requires t.conns == s.conns
    ensures Unheard(s, t, w)
  {
  }

  lemma UnlinkUnheard(s: State, c: Connect, w: Connect)
    requires c in s.conns
    ensures Unheard(s, Unlink(s, c), w)
  {
    UnlinkOnly(s, c);
    hide Unlink, Core;
    forall x | x in s.conns ensures Heard(s.conns[x], Unlink(s, c).conns[x], []) {
      CoreHeard(s.conns[x], Unlink(s, c).conns[x]);
    }
  }

  lemma CoreHeard(u: Conn, v: Conn)
    requires Core(v) == Core(u)
    ensures Heard(u, v, [])
  {
    assert Core(u) == u.(link := 0) && Core(v) == v.(link := 0);
  }

  lemma ForgetUnheard(s: State, w: Connect)
    requires Wf(s) && w in s.conns
    ensures Unheard(s, Forget(s, w), w)
    ensures s.conns[w].status != ClientWaitResult ==>
      Forget(s, w).wait == s.wait && SameDuty(s.conns[w], Forget(s, w).conns[w])
  {
    hide Wf, Grounded, ConnsLive, PopItem, Unlink, Unheard;
    ConnIsLive(s, w);
    PopItemWf(s, w);
    WorkerProofs.PoppedConns(s, w);
    PopWait(s, w);
    var p := PopItem(s, w);
    assert Unheard(s, p, w) by {
      OwnUnheard(s, w, WorkerProofs.Unlisted(s.conns[w]));
      SameUnheard(Upd(s, w, WorkerProofs.Unlisted(s.conns[w])), p, w);
      UnheardTrans(s, Upd(s, w, WorkerProofs.Unlisted(s.conns[w])), p, w);
    }
    ForgetIdle(p, w);
    var v := p.conns[w];
    if v.status == ClientWaitResult && v.id != "" && v.id in p.wait {
      var t := p.(wait := p.wait - {v.id});
      SameUnheard(p, t, w);
      UnlinkUnheard(t, w, w);
      UnheardTrans(s, p, t, w);
      UnheardTrans(s, t, Unlink(t, w), w);
    }
  }

  /** The worker owes the same as before. */
  predicate SameDuty(u: Conn, v: Conn) {
    && v.client == u.client && v.noid == u.noid && v.status == u.status && v.failOnDisconnect == u.failOnDisconnect
    && v.id == u.id
  }

  /** Exactly these are told that w has gone: its client, or whoever is awaited under that client's id. */
  ghost predicate Abandoned(s: State, w: Connect, x: Connect)
    requires w in s.conns && x in s.conns
  {
    var v := s.conns[w];
    && v.failOnDisconnect && v.client.Some? && v.client.value in s.conns && !s.conns[x].closed
    && (if v.noid then v.client.value == x
        else var id := s.conns[v.client.value].id; id in s.wait && s.wait[id] == x)
  }

  lemma ResultHeard(s: State, id: string, w: Connect, x: Connect)
    requires Wf(s) && w in s.conns && x in s.conns && x != w
    ensures var t := WorkerResult(s, id, None).s;
      && x in t.conns
      && Heard(s.conns[x], t.conns[x],
               if id in s.wait && s.wait[id] == x && !s.conns[x].closed then [Unavailable] else [])
  {
    hide Wf, Grounded, ConnsLive, Unlink;
    if id in s.wait {
      RemoveWaitWf(s, id);
      var c := s.wait[id];
      var t := s.(wait := s.wait - {id});
      assert c in t.conns by { EntryLive(s, id); }
      UnlinkedConns(t, c);
      var u := Unlink(t, c);
      if !u.conns[c].closed {
        SendThenStatus(u, c, Unavailable, Net);
      }
    }
  }

  lemma EntryLive(s: State, id: string)
    requires Wf(s) && id in s.wait
    ensures s.wait[id] in s.conns
  {
  }

  lemma FailHeard(b: State, w: Connect, x: Connect)
    requires Wf(b) && w in b.conns && x in b.conns && x != w
    requires b.conns[w].client.Some? ==> b.conns[w].client.value in b.conns
    requires b.conns[w].client.Some? && b.conns[w].noid ==> b.conns[w].client.value != w
    requires b.conns[w].noid && b.conns[w].failOnDisconnect ==>
      (b.conns[w].client.Some? <==> b.conns[w].status == WorkerWaitResult)
    requires b.conns[w].failOnDisconnect
    ensures var t := FailServed(b, w);
      x in t.conns && Heard(b.conns[x], t.conns[x], if Abandoned(b, w, x) then [Unavailable] else [])
  {
    hide Wf, Grounded, ConnsLive, WorkerResult;
    var v := b.conns[w];
    if v.client.Some? {
      var d := v.client.value;
      if v.noid {
        if !b.conns[d].closed {
          SendThenStatus(b, d, Unavailable, Net);
        }
      } else {
        ResultHeard(b, b.conns[d].id, w, x);
      }
    }
  }

  /** What is left of a disconnect once the client of a lost worker has been told is heard by nobody. */
  lemma DropUnheard(f: State, w: Connect)
    requires Wf(f) && w in f.conns
    ensures Unheard(f, DropClient(f, w), w)
  {
    hide Wf, Grounded, ConnsLive, Unlink, Unheard;
    ConnIsLive(f, w);
    SameUnheard(f, f, w);
    if f.conns[w].client.Some? {
      var t, d := SetClient(f, w, None), f.conns[w].client.value;
      OwnUnheard(f, w, f.conns[w].(client := None));
      UnlinkUnheard(t, d, w);
      UnheardTrans(f, t, Unlink(t, d), w);
    }
  }

  lemma LeaveUnheard(d: State, w: Connect)
    requires Wf(d) && w in d.conns
    ensures Unheard(d, LeaveTable(Unlink(d, w), w), w)
  {
    hide Wf, Grounded, ConnsLive, Unlink, Unheard;
    UnlinkUnheard(d, w, w);
    SameUnheard(Unlink(d, w), LeaveTable(Unlink(d, w), w), w);
    UnheardTrans(d, Unlink(d, w), LeaveTable(Unlink(d, w), w), w);
  }

  lemma HeardThen(a: Conn, b: Conn, c: Conn, d: Conn, news: seq<Reply>)
    requires Heard(a, b, []) && Heard(b, c, news) && Heard(c, d, [])
    ensures Heard(a, d, news)
  {
    assert d.out == a.out + news;
  }

  lemma DutiesOf(s: State, w: Connect)
    requires Sane(s) && Wf(s) && w in s.conns && !s.conns[w].closed
    ensures var v := s.conns[w];
      && (v.failOnDisconnect ==> v.status != ClientWaitResult)
      && (v.client.Some? ==> v.client.value in s.conns)
      && (v.client.Some? && v.noid ==> v.client.value != w)
      && (v.noid && v.failOnDisconnect ==> (v.client.Some? <==> v.status == WorkerWaitResult))
  {
    ConnIsLive(s, w);
    hide Balanced, Wf, Settled, Grounded, ConnsLive;
    var v := s.conns[w];
    if v.client.Some? && v.noid {
      ServedClient(s, w);
    }
  }

  /** The state in which on_disconnect starts to settle the duties of w. */
  lemma Settling(s: State, w: Connect, x: Connect)
    requires Sane(s) && Wf(s) && w in s.conns && !s.conns[w].closed && x in s.conns && x != w
    ensures Wf(SetClosed(s, w))
    ensures var b := Forget(SetClosed(s, w), w);
      && Wf(b) && Unheard(s, b, w) && w in b.conns && b.conns[w].failOnDisconnect == s.conns[w].failOnDisconnect
      && (s.conns[w].failOnDisconnect ==>
            SameDuty(s.conns[w], b.conns[w]) && (Abandoned(b, w, x) <==> Abandoned(s, w, x)))
  {
    hide Sane, Wf, Grounded, ConnsLive, Forget;
    DutiesOf(s, w);
    SetClosedWf(s, w);
    var a := SetClosed(s, w);
    OwnUnheard(s, w, s.conns[w].(closed := true));
    ForgetUnheard(a, w);
    UnheardTrans(s, a, Forget(a, w), w);
    KeepsFail(a, w);
    var b := Forget(a, w);
    if s.conns[w].client.Some? && s.conns[w].client.value != w {
      assert Heard(s.conns[s.conns[w].client.value], b.conns[s.conns[w].client.value], []);
    }
    assert Heard(s.conns[x], b.conns[x], []);
  }

  lemma KeepsFail(a: State, w: Connect)
    requires Wf(a) && w in a.conns
    ensures Forget(a, w).conns[w].failOnDisconnect == a.conns[w].failOnDisconnect
  {
    hide Wf, Grounded, ConnsLive, PopItem, Unlink;
    ConnIsLive(a, w);
    PopItemWf(a, w);
    WorkerProofs.PoppedConns(a, w);
    var p := PopItem(a, w);
    UnlinkedConns(p.(wait := p.wait - {p.conns[w].id}), w);
  }

  /** Of all the others, exactly the abandoned are told, and once. */
  lemma WhoIsTold(s: State, w: Connect, x: Connect)
    requires Sane(s) && Wf(s) && LifeProofs.InTable(s, w) && x in s.conns && x != w
    ensures var t := Disconnect(s, w);
      x in t.conns && t.conns[x].out == s.conns[x].out + (if Abandoned(s, w, x) then [Unavailable] else [])
  {
    hide Sane, Wf, Grounded, ConnsLive, Forget, FailServed, DropClient, Unlink, SetClosed, LeaveTable, Abandoned;
    LifeProofs.TableIsOpen(s, w);
    Settling(s, w, x);
    DutiesOf(s, w);
    var b := Forget(SetClosed(s, w), w);
    var d := OnDisconnect(SetClosed(s, w), w);
    var news := if Abandoned(s, w, x) then [Unavailable] else [];
    if b.conns[w].failOnDisconnect {
      FailHeard(b, w, x);
      DropUnheard(FailServed(b, w), w);
      LeaveUnheard(d, w);
      UnheardTrans(FailServed(b, w), d, Disconnect(s, w), w);
      HeardThen(s.conns[x], b.conns[x], FailServed(b, w).conns[x], Disconnect(s, w).conns[x], news);
    } else {
      LeaveUnheard(d, w);
      UnheardTrans(s, d, Disconnect(s, w), w);
      NotAbandoned(s, w, x);
    }
  }

  lemma NotAbandoned(s: State, w: Connect, x: Connect)
    requires w in s.conns && x in s.conns && !s.conns[w].failOnDisconnect
    ensures !Abandoned(s, w, x)
  {
  }

  /**
   When w leaves, nobody but its own client hears anything exactly when w serves without ids, or its
   client's id is awaited by nobody else that is open.
   */
  lemma OnlyOwnClientIff(s: State, w: Connect, d: Connect)
    requires Sane(s) && Wf(s) && LifeProofs.InTable(s, w)
    requires s.conns[w].failOnDisconnect && s.conns[w].client == Some(d) && d in s.conns
    ensures var t := Disconnect(s, w);
      (forall x :: x in s.conns && x in t.conns && x != w && t.conns[x].out != s.conns[x].out ==> x == d)
      <==> (s.conns[w].noid || !Stranger(s, s.conns[d].id, d))
  {
    LifeProofs.TableIsOpen(s, w);
    NobodyAwaits(s, w);
    hide Sane, Wf, Grounded, ConnsLive, Disconnect;
    var t, id := Disconnect(s, w), s.conns[d].id;
    forall x | x in s.conns && x != w
      ensures x in t.conns && (t.conns[x].out != s.conns[x].out <==> Abandoned(s, w, x))
    {
      WhoIsTold(s, w, x);
    }
    if !s.conns[w].noid && Stranger(s, id, d) {
      assert Abandoned(s, w, s.wait[id]);
    }
  }

  /** A worker that fails its client is not itself awaited. */
  lemma NobodyAwaits(s: State, w: Connect)
    requires Sane(s) && Wf(s) && w in s.conns && !s.conns[w].closed && s.conns[w].failOnDisconnect
    ensures forall id :: id in s.wait ==> s.wait[id] != w
  {
    SaneOn(s, w);
    assert !InCall(s.conns[w]);
    hide Sane, Balanced, SaneBut, Wf, Grounded, ConnsLive;
    NotWaiting(s, w);
  }

  /** Somebody else, who is open, is awaited under this id. */
  predicate Stranger(s: State, id: string, d: Connect) {
    id in s.wait && s.wait[id] != d && s.wait[id] in s.conns && !s.conns[s.wait[id]].closed
  }
}
