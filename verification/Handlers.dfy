/** One event after the other on the server object: each is a step of the run, and keeps the invariant. */
module Handlers {
  import opened Connections
  import opened BrokerState
  import opened Common
  import opened Invariants
  import opened Sessions
  import LifeProofs
  import Order
  import opened Runs
  import opened Servers

  /** Every event but the birth of a connection. */
  method Handle(server: Server, e: Event)
    requires Inv(server.View()) && Wf(server.View()) && Enabled(server.View(), e) && !e.Accepted?
    modifies server, server.live
    ensures server.View() == Step(old(server.View()), e)
    ensures Inv(server.View()) && Wf(server.View())
  {
    hide Inv, Wf, Server.View, Server.Conns, Step, Grounded, ConnsLive;
    ghost var s := server.View();
    KeepsInv(s, e);
    Perform(server, e);
  }

  method Perform(server: Server, e: Event)
    requires Wf(server.View()) && Enabled(server.View(), e) && !e.Accepted?
    modifies server, server.live
    ensures server.View() == Step(old(server.View()), e)
  {
    hide Wf, Server.Conns, Begin, Complete, Disconnect, CheckTimeout, Clean, DeleteConnections, OwnEntry, Grounded;
    hide ConnsLive;
    match e
    case Begun(c) => server.Begin(c);
    case Completed(c, r, now, rnd) => server.Complete(c, r, now, rnd);
    case Disconnected(c) => server.Disconnect(c);
    case TimedOut(now) => server.CheckTimeout(now);
    case Cleaned(locked) => server.Clean(locked);
    case Deleted(loop) => server.DeleteConnections(loop);
  }

  /** The event takes s to t. */
  ghost predicate Steps(s: State, e: Event, t: State) {
    Wf(s) && Enabled(s, e) && t == Step(s, e)
  }

  method Admit(server: Server, loop: nat) returns (c: Connect)
    requires Inv(server.View()) && Wf(server.View()) && loop < server.threads
    requires forall x :: x in server.live ==> allocated(x)
    modifies server
    ensures fresh(c) && Steps(old(server.View()), Accepted(c, loop), server.View())
    ensures Inv(server.View()) && Wf(server.View())
  {
    hide Inv, Wf, Server.Conns, Step, Grounded, ConnsLive;
    ghost var s := server.View();
    c := server.Accept(loop);
    assert c !in s.conns;
    KeepsInv(s, Accepted(c, loop));
    StepIsAccept(s, c, loop);
  }

  lemma StepIsAccept(s: State, c: Connect, loop: nat)
    requires Wf(s) && c !in s.conns && loop < s.threads
    ensures Step(s, Accepted(c, loop)) == Accept(s, c, loop)
  {
  }

  lemma KeepsInv(s: State, e: Event)
    requires Inv(s) && Wf(s) && Enabled(s, e)
    ensures Inv(Step(s, e)) && Wf(Step(s, e))
  {
    hide Wf, Step, Enabled, Sane, Order.Orderly, Grounded, ConnsLive;
    LifeProofs.StepSane(s, e);
    StepOrderly(s, e);
    SaneIsWf(Step(s, e));
  }
}
