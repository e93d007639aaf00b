/**
 Why the handler needs the library to withdraw the events of a closed connection.  A client that
 connects and drops before it is accepted is refused and closed; if its drop were still reported
 afterwards, the handler would look up an entry that no longer exists.
 */
module StaleEvents {
  import opened Transport
  import opened TransportProofs
  import opened ServerModel
  import opened Invariant
  import opened ServerProofs
  import opened Runs
  import opened SampleRuns

  /** `h` was dropped before the handler could accept it, and its drop is still to be reported. */
  ghost predicate DroppedEarly(w: World, h: Handle) {
    var y := Yield(w.net);
    && Settled(w) && h !in w.connections && w.fault == NoFault
    && h in y.status && Lost(y.status[h]) && y.Pending(h) == [Event(h, Connecting, y.status[h])]
  }

  /** Whatever is still to be reported about `h`, the handler can deal with it. */
  ghost predicate SafeReports(w: World, h: Handle) {
    forall i :: 0 <= i < |w.net.Pending(h)| ==> OnStatusChange(w, w.net.Pending(h)[i]).fault == NoFault
  }

  /** The handler survives an early drop exactly when closing a connection withdraws its events. */
  lemma SafeExactlyWhenWithdrawn(w: World, h: Handle)
    requires DroppedEarly(w, h)
    ensures var v := OnConnecting(w, h);
      && v.fault == NoFault && h !in v.connections
      && (SafeReports(v, h) <==> w.net.purges)
  {
    RefusedEarly(w, h);
    var v := OnConnecting(w, h);
    if !w.net.purges {
      assert OnStatusChange(v, v.net.Pending(h)[0]).fault == UnregisteredConnection;
    }
  }

  /** The client is refused, which withdraws its drop or does not. */
  lemma RefusedEarly(w: World, h: Handle)
    requires DroppedEarly(w, h)
    ensures var v, y := OnConnecting(w, h), Yield(w.net);
      && v == Refused(w.(net := y), h) && v.fault == NoFault && h !in v.connections
      && v.net.Pending(h) == if w.net.purges then [] else [Event(h, Connecting, y.status[h])]
  {
    OnConnectingIs(w, h);
    YieldEvolves(w.net);
  }

  // ---------------------------------------------------------------- a run

  /** Open, one client connecting, the same client dropping just before it is accepted, its drop reported. */
  const SCHEDULE: seq<Turn> := OPENS_AND_CONNECTS + [Turn([Drop(1, ClosedByPeer)], true, INVALID), Turn([], true, 1)]

  lemma DropRun(purges: bool)
    ensures DroppedEarly(Reported(SCHEDULE, purges), 1)
    ensures Yield(Reported(SCHEDULE, purges).net).script == SCHEDULE[4..]
  {
    var n := Reported(SCHEDULE, purges).net;
    assert n.script[0] == SCHEDULE[3] && n.script[1..] == SCHEDULE[4..];
    OneMove(n, Drop(1, ClosedByPeer));
    var y := Yield(n);
    assert y.status == map[1 := ClosedByPeer];
    assert y.Pending(1) == [Event(1, Connecting, ClosedByPeer)];
  }

  /** The connecting client is refused, which withdraws its drop or does not. */
  lemma RefusedRun(purges: bool)
    ensures var v := OnConnecting(Reported(SCHEDULE, purges), 1);
      && v.running && !v.quit && v.fault == NoFault && v.connections == map[] && v.net.script == SCHEDULE[4..]
      && v.net.Pending(1) == if purges then [] else [Event(1, Connecting, ClosedByPeer)]
  {
    DropRun(purges);
    RefusedEarly(Reported(SCHEDULE, purges), 1);
  }

  lemma ReportRun(purges: bool)
    ensures var v := OnConnecting(Reported(SCHEDULE, purges), 1);
      && v.running && !v.quit && v.fault == NoFault
      && DispatchedOne(v).0.fault == if purges then NoFault else UnregisteredConnection
  {
    RefusedRun(purges);
    DropReported(OnConnecting(Reported(SCHEDULE, purges), 1), purges);
  }

  lemma DropReported(v: World, purges: bool)
    requires v.fault == NoFault && v.connections == map[] && v.net.script == SCHEDULE[4..]
    requires v.net.Pending(1) == if purges then [] else [Event(1, Connecting, ClosedByPeer)]
    ensures DispatchedOne(v).0.fault == if purges then NoFault else UnregisteredConnection
  {
    assert v.net.script == SCHEDULE[4..] && v.net.script[0] == Turn([], true, 1);
    assert MovedAll(v.net, []) == v.net;
    assert Yield(v.net).Pending(1) == if purges then [] else [Event(1, Connecting, ClosedByPeer)];
  }

  lemma RoundsRun(purges: bool)
    ensures var v := AfterOpen(SCHEDULE, purges);
      && Lawful(v, [DispatchRound] + [DispatchRound])
      && (Run(v, [DispatchRound] + [DispatchRound]).fault == UnregisteredConnection <==> !purges)
  {
    var v, u := AfterOpen(SCHEDULE, purges), OnConnecting(Reported(SCHEDULE, purges), 1);
    assert u == DispatchedOne(v).0 by {
      ConnectRun(SCHEDULE, purges);
    }
    ReportRun(purges);
    TwoRounds(v, u);
  }

  /** The schedule is lawful, and it faults exactly when the library does not withdraw events. */
  lemma TheScheduleFaults(purges: bool)
    ensures var actions := [Open(true)] + ([DispatchRound] + [DispatchRound]);
      && Lawful(Start(SCHEDULE, purges), actions)
      && (Run(Start(SCHEDULE, purges), actions).fault == UnregisteredConnection <==> !purges)
      && (purges ==> Initial(Start(SCHEDULE, purges)))
  {
    OpenRun(SCHEDULE, purges);
    RoundsRun(purges);
    RunStep(Start(SCHEDULE, purges), Open(true), [DispatchRound] + [DispatchRound]);
  }
}
