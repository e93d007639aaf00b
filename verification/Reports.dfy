/**
 Dispatching goes through everything the library has to report, one event after the other.
 */
module Reports {
  import opened Transport
  import opened TransportProofs
  import opened ServerModel
  import opened Invariant
  import opened ServerProofs
  import opened OperationProofs
  import opened Runs
  import opened Theorems
  import opened SampleRuns

  /** The library reports `k` events in a row, and handling each at once leads from `w` to `v`. */
  ghost predicate HandledInTurn(w: World, v: World, k: nat)
    decreases k
  {
    if k == 0 then v == w
    else
      var (n, callback) := NextCallback(w.net);
      callback.Report? && HandledInTurn(OnStatusChange(w.(net := n), callback.event), v, k - 1)
  }

  lemma RoundHandles(w: World)
    requires Inv(w) && w.running
    ensures var (n, callback) := NextCallback(w.net);
      if callback.Report? then
        && DispatchedOne(w).0 == OnStatusChange(w.(net := n), callback.event)
        && Dispatched(w) == Dispatched(DispatchedOne(w).0)
        && Inv(DispatchedOne(w).0) && DispatchedOne(w).0.running
        && |DispatchedOne(w).0.net.script| < |w.net.script|
      else Dispatched(w) == w.(net := n)
  {
    DispatchedOneKeeps(w);
    DispatchRoundLeaves(w);
    DispatchedStep(w);
  }

  lemma {:induction false} DispatchedInTurn(w: World) returns (v: World, k: nat)
    requires Inv(w) && w.running
    ensures HandledInTurn(w, v, k) && NextCallback(v.net).1 == Quiet
    ensures Dispatched(w) == v.(net := NextCallback(v.net).0)
    decreases |w.net.script|
  {
    RoundHandles(w);
    if NextCallback(w.net).1.Report? {
      v, k := DispatchedInTurn(DispatchedOne(w).0);
      k := k + 1;
    } else {
      v, k := w, 0;
    }
  }

  /** Dispatching ends only when the library has nothing more to report, and handles everything before that. */
  lemma EverythingReportedIsHandled(start: World, actions: seq<Action>, w: World)
    requires Reached(start, actions, w) && w.running
    ensures exists v, k ::
      HandledInTurn(w, v, k) && NextCallback(v.net).1 == Quiet && Dispatched(w) == v.(net := NextCallback(v.net).0)
  {
    ReachedInv(start, actions, w);
    var v, k := DispatchedInTurn(w);
  }

  // ---------------------------------------------------------------- two clients in one update

  lemma AcceptedAtOnce(n: Net, h: Handle)
    requires n.script != [] && n.script[0] == Turn([], true, 1) && h in n.status && n.status[h] == Connecting
    ensures var (r, ok) := AcceptConnection(n, h);
      && ok && r.script == n.script[1..] && r.status == n.status[h := Connected]
      && (forall k :: k != h ==> r.Pending(k) == n.Pending(k))
      && r.groups == n.groups && r.closedGroups == n.closedGroups
  {
    assert MovedAll(n, []) == n;
  }

  lemma JoinedAtOnce(w: World, h: Handle)
    requires w.net.script != [] && w.net.script[0] == Turn([], true, 1)
    requires h in w.net.status && w.net.status[h] == Connected && w.net.LiveGroup(w.group)
    ensures var v := JoinOutcome(w, h);
      && v.connections.Keys == w.connections.Keys + {h} && v.net.script == w.net.script[1..]
      && v.net.status == w.net.status && v.net.pending == w.net.pending
  {
    assert MovedAll(w.net, []) == w.net;
  }

  /** A connecting client is let in at once when neither call fails. */
  lemma LetIn(w: World, h: Handle)
    requires Settled(w) && h !in w.connections && h in w.net.status && w.net.status[h] == Connecting
    requires |w.net.script| >= 2 && w.net.script[0] == w.net.script[1] == Turn([], true, 1)
    requires w.net.LiveGroup(w.group)
    ensures var v := OnConnecting(w, h);
      && v.connections.Keys == w.connections.Keys + {h} && v.net.script == w.net.script[2..]
      && v.net.status == w.net.status[h := Connected]
      && (forall k :: k != h ==> v.net.Pending(k) == w.net.Pending(k))
  {
    OnConnectingIs(w, h);
    AcceptedAtOnce(w.net, h);
    var v := w.(net := AcceptConnection(w.net, h).0);
    assert v.net.script[0] == Turn([], true, 1) && v.net.script[1..] == w.net.script[2..];
    JoinedAtOnce(v, h);
  }

  /** Reporting a connecting client and handling it, as one round. */
  lemma ConnectHandled(w: World, h: Handle)
    requires Inv(w) && w.running && NextCallback(w.net).1 == Report(Event(h, NoStatus, Connecting))
    ensures var v := w.(net := NextCallback(w.net).0);
      && Settled(v) && v.net.LiveGroup(v.group)
      && DispatchedOne(w).0 == OnConnecting(v, h) && Dispatched(w) == Dispatched(DispatchedOne(w).0)
      && Inv(DispatchedOne(w).0) && DispatchedOne(w).0.running
  {
    RoundHandles(w);
    NextCallbackKeeps(w.net);
    RestEvolves(w, NextCallback(w.net).0);
    HandledAs(w.(net := NextCallback(w.net).0), Event(h, NoStatus, Connecting));
  }

  /** Two clients connect at the same time; both are accepted and join, and then nothing more is reported. */
  const TWO_CLIENTS: seq<Turn> := OPENS + [Turn([Connect(1), Connect(2)], true, 1)]
    + [Turn([], true, 1), Turn([], true, 1), Turn([], true, 2), Turn([], true, 1), Turn([], true, 1)]

  lemma BothConnect(n: Net)
    requires n.script == TWO_CLIENTS[2..] && n.status == map[] && n.pending == map[]
    ensures var (r, callback) := NextCallback(n);
      && callback == Report(Event(1, NoStatus, Connecting)) && r.script == TWO_CLIENTS[3..]
      && r.status == map[1 := Connecting, 2 := Connecting] && r.Pending(2) == [Event(2, NoStatus, Connecting)]
  {
    var moves := [Connect(1), Connect(2)];
    var one := Moved(n, Connect(1));
    assert n.script[0].moves == moves && moves[1..] == [Connect(2)] && n.script[1..] == TWO_CLIENTS[3..];
    assert MovedAll(n, moves) == MovedAll(one, [Connect(2)]);
    OneMove(one, Connect(2));
    assert Moved(one, Connect(2)).status == map[1 := Connecting, 2 := Connecting];
  }

  lemma SecondReport(n: Net)
    requires n.script == TWO_CLIENTS[5..] && n.Pending(2) == [Event(2, NoStatus, Connecting)]
    ensures var (r, callback) := NextCallback(n);
      && callback == Report(Event(2, NoStatus, Connecting)) && r.script == TWO_CLIENTS[6..] && r.status == n.status
  {
    assert n.script[0] == Turn([], true, 2) && n.script[1..] == TWO_CLIENTS[6..];
    assert MovedAll(n, []) == n;
  }

  /** The state before the update: a fresh server, opened, without a packet callback. */
  function JustOpened(): World {
    Opened(Start(TWO_CLIENTS, true).(packetCallback := false), true)
  }

  lemma JustOpenedIs()
    ensures var w := JustOpened();
      && Inv(w) && w == AfterOpen(TWO_CLIENTS, true).(packetCallback := false)
      && w.net.script == TWO_CLIENTS[2..] && w.net.LiveGroup(w.group)
  {
    var start := Start(TWO_CLIENTS, true).(packetCallback := false);
    InitialKeeps(start);
    OpenedKeeps(start, true);
    OpenRun(TWO_CLIENTS, true);
    assert Opened(start, true) == Opened(Start(TWO_CLIENTS, true), true).(packetCallback := false);
  }

  /** The first client is in and the second is still to be reported. */
  ghost predicate FirstIsIn(w: World) {
    && Inv(w) && w.running && w.connections.Keys == {1} && w.net.script == TWO_CLIENTS[5..]
    && 2 in w.net.status && w.net.status[2] == Connecting
    && w.net.Pending(2) == [Event(2, NoStatus, Connecting)]
  }

  lemma FirstComesIn(w: World)
    requires Inv(w) && w.running && w.connections == map[]
    requires w.net.script == TWO_CLIENTS[2..] && w.net.status == map[] && w.net.pending == map[]
    ensures FirstIsIn(DispatchedOne(w).0) && Dispatched(w) == Dispatched(DispatchedOne(w).0)
  {
    BothConnect(w.net);
    ConnectHandled(w, 1);
    TailOfTwo();
    FirstLetIn(w.(net := NextCallback(w.net).0));
  }

  lemma TailOfTwo()
    ensures var script := TWO_CLIENTS[3..];
      |script| == 5 && script[0] == script[1] == Turn([], true, 1) && script[2..] == TWO_CLIENTS[5..]
  {
  }

  lemma FirstLetIn(w: World)
    requires Settled(w) && w.connections == map[] && w.net.LiveGroup(w.group)
    requires |w.net.script| >= 2 && w.net.script[0] == w.net.script[1] == Turn([], true, 1)
    requires 1 in w.net.status && w.net.status[1] == Connecting && 2 in w.net.status && w.net.status[2] == Connecting
    requires w.net.Pending(2) == [Event(2, NoStatus, Connecting)]
    ensures var v := OnConnecting(w, 1);
      && v.connections.Keys == {1} && v.net.script == w.net.script[2..]
      && 2 in v.net.status && v.net.status[2] == Connecting && v.net.Pending(2) == [Event(2, NoStatus, Connecting)]
  {
    LetIn(w, 1);
    assert w.connections.Keys + {1} == {1};
  }

  lemma SecondComesIn(w: World)
    requires FirstIsIn(w)
    ensures Dispatched(w).connections.Keys == {1, 2}
  {
    SecondReport(w.net);
    ConnectHandled(w, 2);
    SecondLetIn(w.(net := NextCallback(w.net).0));
    NothingMore(DispatchedOne(w).0);
  }

  lemma SecondLetIn(w: World)
    requires Settled(w) && w.connections.Keys == {1} && w.net.LiveGroup(w.group)
    requires w.net.script == TWO_CLIENTS[6..] && 2 in w.net.status && w.net.status[2] == Connecting
    ensures OnConnecting(w, 2).connections.Keys == {1, 2} && OnConnecting(w, 2).net.script == []
  {
    assert w.net.script[0] == w.net.script[1] == Turn([], true, 1) && w.net.script[2..] == [];
    LetIn(w, 2);
  }

  lemma NothingMore(w: World)
    requires Inv(w) && w.running && w.net.script == []
    ensures Dispatched(w).connections == w.connections
  {
    RoundHandles(w);
  }

  /** A run of an opening and one update, in which both clients come in. */
  lemma OneUpdateLetsBothIn()
    ensures exists w ::
      && Reached(Start(TWO_CLIENTS, true).(packetCallback := false), [Open(true)] + [Update], w)
      && w.connections.Keys == {1, 2}
  {
    var start, u := Start(TWO_CLIENTS, true).(packetCallback := false), JustOpened();
    assert Updated(u).connections.Keys == {1, 2} by {
      BothComeIn();
    }
    TwoSteps(start, u, Open(true), Update);
    assert Reached(start, [Open(true)] + [Update], Updated(u));
  }

  lemma BothComeIn()
    ensures Updated(JustOpened()).connections.Keys == {1, 2}
  {
    var u := JustOpened();
    JustOpenedIs();
    FirstComesIn(u);
    SecondComesIn(DispatchedOne(u).0);
    UpdatedClients(u);
  }

  lemma UpdatedClients(w: World)
    requires Inv(w) && w.running && !w.quit && !w.packetCallback
    ensures Updated(w).connections == Dispatched(w).connections
  {
    UpdateStages(w);
  }
}
