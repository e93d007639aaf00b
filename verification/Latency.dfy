/**
 How long a packet waits: every update moves it to the front by the packet limit, and a drain
 hands over exactly as many packets as it may and can.
 */
module Latency {
  import opened Transport
  import opened TransportProofs
  import opened ServerModel
  import opened Invariant
  import opened ServerProofs
  import opened OperationProofs
  import opened Runs
  import opened Theorems
  import opened ConsoleTheorems
  import opened SampleRuns

  // ---------------------------------------------------------------- exact drains

  /** From `w` to `v` exactly the oldest packets that `limit` allows were handed over, in order. */
  ghost predicate HandsOver(w: World, v: World, limit: nat) {
    && w.net.arrived <= v.net.arrived && w.history.delivered <= v.history.delivered
    && (var all := w.net.inbox + v.net.arrived[|w.net.arrived|..];
        var taken := |v.history.delivered| - |w.history.delivered|;
        && taken <= |all| && taken <= limit && (taken < limit ==> taken == |all|)
        && v.history.delivered == w.history.delivered + all[..taken] && v.net.inbox == all[taken..])
  }

  /**
   A drain of a running server whose clients are all in its poll group hands over the oldest packets,
   in order: as many as its limit allows, or all there are; so exactly the smaller number if nothing arrives meanwhile.
   */
  lemma DrainIsExact(w: World)
    requires Inv(w) && Gathered(w) && w.running && w.packetCallback
    ensures HandsOver(w, PendingPackets(w), w.maxPackets)
    ensures Delivers(w, PendingPackets(w), w.maxPackets)
  {
    var v := PendingPackets(w);
    DrainedHandsOver(w, w.maxPackets);
    DrainAsPrefix(w, v, w.maxPackets);
    ExactWithoutArrivals(w, v, w.maxPackets);
  }

  /** From `w` to `v` exactly `limit` packets were handed over, or all of fewer, if none arrived. */
  ghost predicate Delivers(w: World, v: World, limit: nat) {
    v.net.arrived == w.net.arrived ==>
      |v.history.delivered| - |w.history.delivered| == if limit < |w.net.inbox| then limit else |w.net.inbox|
  }

  lemma ExactWithoutArrivals(w: World, v: World, limit: nat)
    requires HandsOver(w, v, limit)
    ensures Delivers(w, v, limit)
  {
  }

  lemma DrainAsPrefix(w: World, v: World, limit: nat)
    requires Drain(w, v, limit)
    ensures HandsOver(w, v, limit)
  {
    var all := w.net.inbox + v.net.arrived[|w.net.arrived|..];
    var taken := v.history.delivered[|w.history.delivered|..];
    assert all == taken + v.net.inbox;
    assert taken == all[..|taken|] && v.net.inbox == all[|taken|..];
    assert v.history.delivered == w.history.delivered + taken;
  }

  // ---------------------------------------------------------------- packets are handed over once

  ghost predicate Increasing(ms: seq<Message>) {
    forall i, j :: 0 <= i < j < |ms| ==> ms[i].serial < ms[j].serial
  }

  lemma {:induction false} FromContains(ms: seq<Message>, h: Handle, m: Message)
    ensures m in From(ms, h) <==> m in ms && m.from == h
  {
    if ms == [] {
    } else {
      FromContains(ms[1..], h, m);
      assert ms == [ms[0]] + ms[1..];
    }
  }

  lemma {:induction false} FromIncreases(ms: seq<Message>, h: Handle)
    requires Increasing(ms)
    ensures Increasing(From(ms, h))
  {
    if ms == [] {
    } else {
      FromIncreases(ms[1..], h);
      forall m | m in From(ms[1..], h) ensures ms[0].serial < m.serial {
        FromContains(ms[1..], h, m);
      }
    }
  }

  /** A stream is handed over in the order of arrival, and no packet of it twice. */
  lemma DeliveredIncreases(w: World, h: Handle)
    requires Inv(w)
    ensures Increasing(From(w.history.delivered, h)) && From(w.history.delivered, h) <= From(w.net.arrived, h)
  {
    assert Stream(w.net, w.history.delivered, h);
    FromIncreases(w.net.arrived, h);
  }

  /** No waiting packet has been handed over yet, nor an equal one. */
  lemma WaitingIsNew(w: World, p: nat)
    requires Inv(w) && p < |w.net.inbox|
    ensures w.net.inbox[p] !in w.history.delivered && w.net.closed[w.net.inbox[p].from] == 0
  {
    var m := w.net.inbox[p];
    WaitingIsOpen(w, p);
    FromContains(w.net.inbox, m.from, m);
    FromContains(w.history.delivered, m.from, m);
    OnOneSide(From(w.history.delivered, m.from), From(w.net.inbox, m.from), m);
  }

  lemma WaitingIsOpen(w: World, p: nat)
    requires Inv(w) && p < |w.net.inbox|
    ensures var h := w.net.inbox[p].from;
      w.net.closed[h] == 0 && Increasing(From(w.history.delivered, h) + From(w.net.inbox, h))
  {
    var h := w.net.inbox[p].from;
    assert w.net.closed[h] == 0;
    assert Stream(w.net, w.history.delivered, h);
    FromIncreases(w.net.arrived, h);
  }

  lemma OnOneSide(done: seq<Message>, left: seq<Message>, m: Message)
    requires Increasing(done + left) && m in left
    ensures m !in done
  {
    var j :| 0 <= j < |left| && left[j] == m;
    forall i | 0 <= i < |done| ensures done[i] != m {
      assert (done + left)[i].serial < (done + left)[|done| + j].serial;
    }
  }

  // ---------------------------------------------------------------- waiting packets

  /** Handed over, or given up because its connection was closed. */
  ghost predicate Served(w: World, m: Message) {
    m in w.history.delivered || w.net.closed[m.from] > 0
  }

  /** `m` is at position `p` of `ms` or before; for a negative `p` that is false. */
  ghost predicate Waits(ms: seq<Message>, m: Message, p: int) {
    exists i :: 0 <= i <= p && i < |ms| && ms[i] == m
  }

  /** Closed, or waiting at position `p` or before. */
  ghost predicate Queued(n: Net, m: Message, p: int) {
    n.closed[m.from] > 0 || Waits(n.inbox, m, p)
  }

  lemma QueuedEvolves(n: Net, r: Net, m: Message, p: int)
    requires Queued(n, m, p) && Evolves(n, r)
    ensures Queued(r, m, p)
  {
    if n.closed[m.from] == 0 {
      var i :| 0 <= i <= p && i < |n.inbox| && n.inbox[i] == m;
      assert r.inbox[i] == m;
    }
  }

  lemma {:induction false} WaitsWithout(ms: seq<Message>, hs: set<Handle>, m: Message, p: int)
    requires Waits(ms, m, p) && m.from !in hs
    ensures Waits(Without(ms, hs), m, p)
  {
    if ms[0].from in hs {
      assert ms[0] != m;
      var i :| 0 <= i <= p && i < |ms| && ms[i] == m;
      assert ms[1..][i - 1] == m;
      WaitsWithout(ms[1..], hs, m, p);
    } else if ms[0] == m {
      assert Without(ms, hs)[0] == m;
    } else {
      var i :| 0 <= i <= p && i < |ms| && ms[i] == m;
      assert ms[1..][i - 1] == m;
      WaitsWithout(ms[1..], hs, m, p - 1);
      var j :| 0 <= j <= p - 1 && j < |Without(ms[1..], hs)| && Without(ms[1..], hs)[j] == m;
      assert Without(ms, hs)[j + 1] == m;
    }
  }

  lemma QueuedCloses(n: Net, hs: set<Handle>, m: Message, p: int)
    requires Queued(n, m, p)
    ensures Queued(CloseAll(n, hs), m, p)
  {
    if n.closed[m.from] == 0 && m.from !in hs {
      WaitsWithout(n.inbox, hs, m, p);
    }
  }

  /** Handling a status event moves no waiting packet back. */
  lemma QueuedOnDropped(w: World, h: Handle, was: Status, m: Message, p: int)
    requires Queued(w.net, m, p) && h in w.connections && w.connections[h].handle == h
    ensures Queued(OnDropped(w, h, was).net, m, p)
  {
    var told := if was == Connected then SentToAll(w, Left(h), Reliable, h) else w;
    ClosedClientIs(told, h);
    QueuedCloses(told.net, {h}, m, p);
  }

  lemma QueuedYields(n: Net, m: Message, p: int)
    requires Queued(n, m, p)
    ensures Queued(Yield(n), m, p)
  {
    YieldEvolves(n);
    QueuedEvolves(n, Yield(n), m, p);
  }

  lemma QueuedAccepts(n: Net, h: Handle, m: Message, p: int)
    requires Queued(n, m, p)
    ensures Queued(AcceptConnection(n, h).0, m, p)
  {
    QueuedYields(n, m, p);
    assert AcceptConnection(n, h).0.inbox == Yield(n).inbox;
  }

  lemma QueuedJoins(w: World, h: Handle, m: Message, p: int)
    requires Queued(w.net, m, p)
    ensures Queued(JoinOutcome(w, h).net, m, p)
  {
    QueuedYields(w.net, m, p);
    var (n, joined) := SetConnectionPollGroup(w.net, h, w.group);
    if joined {
      assert JoinOutcome(w, h).net.inbox == Yield(w.net).inbox;
    } else {
      QueuedCloses(n, {h}, m, p);
    }
  }

  lemma QueuedOnConnecting(w: World, h: Handle, m: Message, p: int)
    requires Queued(w.net, m, p) && Settled(w) && h !in w.connections
    ensures Queued(OnConnecting(w, h).net, m, p)
  {
    OnConnectingIs(w, h);
    QueuedAccepts(w.net, h, m, p);
    var (n, ok) := AcceptConnection(w.net, h);
    if ok {
      QueuedJoins(w.(net := n), h, m, p);
    } else {
      QueuedCloses(n, {h}, m, p);
    }
  }

  lemma QueuedReports(w: World, e: Event, m: Message, p: int)
    requires Queued(w.net, m, p) && Settled(w)
    requires Lost(e.currentStatus) ==> e.connection in w.connections
    requires e.currentStatus == Connecting ==> e.connection !in w.connections
    ensures Queued(OnStatusChange(w, e).net, m, p)
  {
    if e.currentStatus == Connecting {
      QueuedOnConnecting(w, e.connection, m, p);
    } else if Lost(e.currentStatus) {
      QueuedOnDropped(w, e.connection, e.oldStatus, m, p);
    }
  }

  lemma ReportsAreSound(w: World)
    requires Inv(w) && w.running
    ensures var (n, callback) := NextCallback(w.net);
      && Settled(w.(net := n)) && n.inbox == Yield(w.net).inbox && n.closed == Yield(w.net).closed
      && (callback.Report? ==>
            && (Lost(callback.event.currentStatus) ==> callback.event.connection in w.connections)
            && (callback.event.currentStatus == Connecting ==> callback.event.connection !in w.connections))
  {
    DispatchedOneKeeps(w);
    NextCallbackKeeps(w.net);
    RestEvolves(w, NextCallback(w.net).0);
  }

  lemma QueuedDispatchRound(w: World, m: Message, p: int)
    requires Inv(w) && w.running && Queued(w.net, m, p)
    ensures Queued(DispatchedOne(w).0.net, m, p)
  {
    ReportsAreSound(w);
    var (n, callback) := NextCallback(w.net);
    assert Queued(n, m, p) by {
      QueuedYields(w.net, m, p);
    }
    if callback.Report? {
      QueuedReports(w.(net := n), callback.event, m, p);
    }
  }

  /** A state of the dispatch loop in which `m` is no further back than `p`. */
  ghost predicate Dispatches(w: World, m: Message, p: int) {
    Inv(w) && w.running && Queued(w.net, m, p)
  }

  lemma QueuedGoesOn(w: World, m: Message, p: int)
    requires Dispatches(w, m, p)
    ensures Dispatches(DispatchedOne(w).0, m, p)
  {
    assert Inv(DispatchedOne(w).0) by {
      DispatchedOneKeeps(w);
    }
    assert DispatchedOne(w).0.running by {
      DispatchRoundLeaves(w);
    }
    QueuedDispatchRound(w, m, p);
  }

  lemma QueuedDispatch(w: World, m: Message, p: int)
    requires Dispatches(w, m, p)
    ensures Dispatches(Dispatched(w), m, p)
  {
    forall v | Dispatches(v, m, p) ensures Dispatches(DispatchedOne(v).0, m, p) {
      QueuedGoesOn(v, m, p);
    }
    DispatchLoop(w, (v: World) => Dispatches(v, m, p));
  }

  // ---------------------------------------------------------------- without a packet callback

  /** What waits still does after dispatching, unless its connection is gone. */
  lemma WaitingStays(w: World, v: World, m: Message)
    requires Dispatches(v, m, |w.net.inbox|) && m.from in v.connections
    ensures m in v.net.inbox
  {
    ClosedIsGone(v, m.from);
  }

  /**
   Without a packet callback an update asks the library for no packet and hands over none; what waits
   goes on waiting, unless its connection is closed.
   */
  lemma NothingIsHandedOverWithoutCallback(start: World, actions: seq<Action>, w: World)
    requires Reached(start, actions, w) && !w.packetCallback
    ensures PendingPackets(w) == w && Performed(w, DrainRound) == w
    ensures Updated(w).history.delivered == w.history.delivered
    ensures forall m :: m in w.net.inbox && m.from in Updated(w).connections ==> m in Updated(w).net.inbox
  {
    ReachedInv(start, actions, w);
    if w.running && !w.quit {
      WithoutCallback(w);
    }
  }

  lemma WithoutCallback(w: World)
    requires Inv(w) && w.running && !w.quit && !w.packetCallback
    ensures Updated(w).history.delivered == w.history.delivered
    ensures forall m :: m in w.net.inbox && m.from in Updated(w).connections ==> m in Updated(w).net.inbox
  {
    UpdateStages(w);
    assert PendingPackets(w) == w;
    forall m | m in w.net.inbox && m.from in Updated(w).connections ensures m in Updated(w).net.inbox {
      assert Waits(w.net.inbox, m, |w.net.inbox|);
      QueuedDispatch(w, m, |w.net.inbox|);
      WaitingStays(w, Dispatched(w), m);
    }
  }

  // ---------------------------------------------------------------- updates

  /** Handed over, given up, or waiting at position `p` or before. */
  ghost predicate Due(w: World, m: Message, p: int) {
    Served(w, m) || Waits(w.net.inbox, m, p)
  }

  /** A drain serves the first `limit` packets and moves the others up by `limit`. */
  lemma DrainAdvances(w: World, v: World, limit: nat, m: Message, p: int)
    requires Due(w, m, p) && HandsOver(w, v, limit) && v.net.closed == w.net.closed
    ensures Due(v, m, if p < limit then -1 else p - limit)
  {
    if !Served(w, m) {
      var all := w.net.inbox + v.net.arrived[|w.net.arrived|..];
      var taken := |v.history.delivered| - |w.history.delivered|;
      var i :| 0 <= i <= p && i < |w.net.inbox| && w.net.inbox[i] == m;
      assert all[i] == m;
      if i < taken {
        assert v.history.delivered[|w.history.delivered| + i] == m;
      } else {
        assert v.net.inbox[i - taken] == m;
      }
    } else if m in w.history.delivered {
      assert m in v.history.delivered;
    }
  }

  /** Dispatching moves no waiting packet back and takes nothing back. */
  lemma DispatchAdvances(w: World, m: Message, p: int)
    requires Inv(w) && w.running && Due(w, m, p)
    ensures Due(Dispatched(w), m, p)
  {
    if m in w.history.delivered {
      assert Dispatched(w).history.delivered == w.history.delivered by {
        DispatchedKeeps(w);
      }
    } else {
      QueuedDispatch(w, m, p);
    }
  }

  /** A running server with all clients in its poll group, a packet callback and a packet limit. */
  ghost predicate Serving(w: World, limit: nat) {
    Inv(w) && Gathered(w) && w.running && w.packetCallback && w.maxPackets == limit
  }

  lemma UpdateServes(w: World, limit: nat)
    requires Serving(w, limit)
    ensures Serving(Updated(w), limit)
  {
    if !w.quit {
      UpdateStages(w);
      UpdatedFrame(w);
      FramedKeepsGathered(w, Updated(w));
    }
  }

  /**
   One update: of the packets waiting, none of which was handed over before, the first `limit` are
   handed over and the others move up by `limit`, unless their connection is closed.
   */
  lemma UpdateAdvances(w: World, p: nat, limit: nat)
    requires Serving(w, limit) && !w.quit && p < |w.net.inbox|
    ensures var m, v := w.net.inbox[p], Updated(w);
      && m !in w.history.delivered
      && (m in v.history.delivered || m.from !in v.connections || (p >= limit && Waits(v.net.inbox, m, p - limit)))
  {
    WaitingIsNew(w, p);
    DueAdvances(w, w.net.inbox[p], p, limit);
    UpdatedKeeps(w);
    ClosedIsGone(Updated(w), w.net.inbox[p].from);
  }

  lemma DueAdvances(w: World, m: Message, p: int, limit: nat)
    requires Serving(w, limit) && !w.quit && Due(w, m, p)
    ensures Due(Updated(w), m, Ahead(p, limit))
  {
    var drained := PendingPackets(w);
    UpdateStages(w);
    assert Due(drained, m, Ahead(p, limit)) by {
      DrainIsExact(w);
      DrainedHandsOver(w, limit);
      DrainAdvances(w, drained, limit, m, p);
    }
    DispatchAdvances(drained, m, Ahead(p, limit));
  }

  /** The position `limit` places ahead of `p`, or -1 when there is none. */
  function Ahead(p: int, limit: nat): int {
    if p < limit then -1 else p - limit
  }

  // ---------------------------------------------------------------- calls

  /** Calls that leave the server open, its packet callback set and its packet limit as it is. */
  predicate Attends(a: Action, limit: nat) {
    !a.Open? && !a.Close? && (a.UsePacketCallback? ==> a.on) && (a.LimitPackets? ==> a.n == limit)
  }

  ghost predicate SameSettings(w: World, v: World) {
    v.packetCallback == w.packetCallback && v.maxPackets == w.maxPackets
  }

  lemma RoundsKeepSettings(w: World)
    requires Inv(w) && w.running
    ensures SameSettings(w, DrainedOne(w).0) && SameSettings(w, DispatchedOne(w).0) && SameSettings(w, ReadOne(w).0)
  {
    assert SameSettings(w, DrainedOne(w).0) by {
      RoundKeeps(w);
    }
    assert SameSettings(w, DispatchedOne(w).0) by {
      DispatchRoundLeaves(w);
    }
    ReadRoundIs(w);
  }

  /** A single round of an update is that round, or nothing where the update would skip it. */
  lemma RoundIsOneOf(w: World, a: Action)
    requires a.DrainRound? || a.DispatchRound? || a.ReadRound?
    ensures var v := Performed(w, a);
      v == w || v == DrainedOne(w).0 || v == DispatchedOne(w).0 || v == ReadOne(w).0
  {
  }

  lemma CallKeepsSettings(w: World, a: Action, limit: nat)
    requires Serving(w, limit) && Attends(a, limit)
    ensures Performed(w, a).packetCallback && Performed(w, a).maxPackets == limit
  {
    if a.Update? {
      UpdateServes(w, limit);
    } else if a.DrainRound? || a.DispatchRound? || a.ReadRound? {
      RoundKeepsSettings(w, a);
    } else {
      PlainCallKeepsSettings(w, a, limit);
    }
  }

  lemma RoundKeepsSettings(w: World, a: Action)
    requires Inv(w) && w.running && (a.DrainRound? || a.DispatchRound? || a.ReadRound?)
    ensures SameSettings(w, Performed(w, a))
  {
    RoundsKeepSettings(w);
    RoundIsOneOf(w, a);
  }

  lemma PlainCallKeepsSettings(w: World, a: Action, limit: nat)
    requires w.packetCallback && w.maxPackets == limit && Attends(a, limit)
    requires !a.Update? && !a.DrainRound? && !a.DispatchRound? && !a.ReadRound?
    ensures Performed(w, a).packetCallback && Performed(w, a).maxPackets == limit
  {
  }

  lemma CallServes(w: World, a: Action, limit: nat)
    requires Serving(w, limit) && Attends(a, limit)
    ensures Serving(Performed(w, a), limit)
  {
    ActionKeeps(w, a);
    ActionFrame(w, a);
    FramedKeepsGathered(w, Performed(w, a));
    CallKeepsSettings(w, a, limit);
  }

  lemma DrainRoundDue(w: World, m: Message, p: int)
    requires Inv(w) && Gathered(w) && w.running && Due(w, m, p)
    ensures Due(DrainedOne(w).0, m, p)
  {
    DrainedOldest(w);
    var y := Yield(w.net);
    if m !in w.history.delivered {
      QueuedEvolves(w.net, y, m, p);
    }
    if y.inbox != [] {
      HandedOverDue(w.(net := y), m, p);
    }
  }

  lemma HandedOverDue(w: World, m: Message, p: int)
    requires w.net.inbox != [] && Due(w, m, p)
    ensures Due(HandedOver(w, 0), m, p)
  {
    var v := HandedOver(w, 0);
    if m in w.history.delivered {
      assert m in v.history.delivered;
    } else if w.net.closed[m.from] == 0 {
      var i :| 0 <= i <= p && i < |w.net.inbox| && w.net.inbox[i] == m;
      if i == 0 {
        assert v.history.delivered[|w.history.delivered|] == m;
      } else {
        assert v.net.inbox[i - 1] == m;
      }
    }
  }

  lemma DispatchRoundDue(w: World, m: Message, p: int)
    requires Inv(w) && w.running && Due(w, m, p)
    ensures Due(DispatchedOne(w).0, m, p)
  {
    DispatchRoundLeaves(w);
    if m !in w.history.delivered {
      QueuedDispatchRound(w, m, p);
    }
  }

  lemma ExpelledDue(w: World, h: Handle, m: Message, p: int)
    requires Inv(w) && h in w.connections && Due(w, m, p)
    ensures Due(Expelled(w, h), m, p)
  {
    var v := w.(history := w.history.(expelled := w.history.expelled + {h}));
    ClosedClientIs(v, h);
    if m !in w.history.delivered {
      QueuedCloses(w.net, {h}, m, p);
    }
  }

  lemma PlainCallDue(w: World, a: Action, m: Message, p: int)
    requires a.Broadcast? || a.SendTo? || a.UsePacketCallback? || a.LimitPackets? || (a.Expel? && a.h !in w.connections)
    requires Due(w, m, p)
    ensures Due(Performed(w, a), m, p)
  {
  }

  lemma RoundDue(w: World, a: Action, m: Message, p: int)
    requires Inv(w) && Gathered(w) && Due(w, m, p) && (a.DrainRound? || a.DispatchRound? || a.ReadRound?)
    ensures Due(Performed(w, a), m, p)
  {
    if w.running {
      DrainRoundDue(w, m, p);
      DispatchRoundDue(w, m, p);
      ReadRoundIs(w);
    }
  }

  /** An update moves a waiting packet up, and no other call moves it back. */
  lemma CallDue(w: World, a: Action, m: Message, p: int, limit: nat)
    requires Serving(w, limit) && Attends(a, limit) && !w.quit && Due(w, m, p)
    ensures Due(Performed(w, a), m, if a.Update? then Ahead(p, limit) else p)
  {
    if a.Update? {
      DueAdvances(w, m, p, limit);
    } else if a.DrainRound? || a.DispatchRound? || a.ReadRound? {
      RoundDue(w, a, m, p);
    } else if a.Expel? && a.h in w.connections {
      ExpelledDue(w, a.h, m, p);
    } else {
      PlainCallDue(w, a, m, p);
    }
  }

  // ---------------------------------------------------------------- arrivals

  /** What arrives at an open connection waits behind what arrived before, with the bytes it came with. */
  lemma ArrivalWaits(n: Net, h: Handle, data: seq<byte>)
    requires n.script != [] && n.script[0].moves == [Arrive(h, data)] && h in n.status && n.status[h] == Connected
    ensures Yield(n).inbox == n.inbox + [Message(h, data, |n.arrived|)]
    ensures Yield(n).arrived == n.arrived + [Message(h, data, |n.arrived|)]
  {
    OneMove(n, Arrive(h, data));
  }

  /** Bytes that arrive at an idle server while it receives are the next to be handed over. */
  lemma ArrivalsAreHandedOver(w: World, h: Handle, data: seq<byte>, limit: nat)
    requires Serving(w, limit) && !w.quit && w.net.inbox == []
    requires w.net.script != [] && w.net.script[0].moves == [Arrive(h, data)]
    requires h in w.net.status && w.net.status[h] == Connected
    ensures var v := Performed(w, DrainRound);
      v.history.delivered == w.history.delivered + [Message(h, data, |w.net.arrived|)] && v.net.inbox == []
  {
    ArrivalWaits(w.net, h, data);
    DrainedOldest(w);
    OneHandedOver(w, Yield(w.net), Message(h, data, |w.net.arrived|));
  }

  lemma OneHandedOver(w: World, y: Net, m: Message)
    requires w.running && !w.quit && w.packetCallback && y.inbox == [m]
    requires DrainedOne(w).0 == HandedOver(w.(net := y), 0)
    ensures var v := Performed(w, DrainRound);
      v.history.delivered == w.history.delivered + [m] && v.net.inbox == []
  {
  }

  // ---------------------------------------------------------------- runs

  /** `m` is at position `p` or better, or quit was requested. */
  ghost predicate DueOrQuit(w: World, m: Message, p: int) {
    w.quit || Due(w, m, p)
  }

  lemma CallDueOrQuit(w: World, a: Action, m: Message, p: int, limit: nat)
    requires Serving(w, limit) && Attends(a, limit) && DueOrQuit(w, m, p)
    ensures DueOrQuit(Performed(w, a), m, if a.Update? then Ahead(p, limit) else p)
  {
    if w.quit {
      ActionFrozen(w, a);
    } else {
      CallDue(w, a, m, p, limit);
    }
  }

  /** How many of the calls are updates. */
  function UpdatesIn(actions: seq<Action>): nat {
    if actions == [] then 0 else (if actions[0].Update? then 1 else 0) + UpdatesIn(actions[1..])
  }

  /** The position `n` times `limit` places ahead of `p`, or -1 when there is none. */
  function FarAhead(p: int, n: nat, limit: nat): int
    decreases n
  {
    if n == 0 then p else FarAhead(Ahead(p, limit), n - 1, limit)
  }

  lemma {:induction false} FarAheadIsFirst(p: int, n: nat, limit: nat)
    requires p < n * limit + limit
    ensures FarAhead(p, n, limit) < limit
    decreases n
  {
    if n == 0 {
    } else {
      assert n * limit == (n - 1) * limit + limit;
      assert 0 <= (n - 1) * limit;
      FarAheadIsFirst(Ahead(p, limit), n - 1, limit);
    }
  }

  lemma {:induction false} RunAdvances(w: World, actions: seq<Action>, m: Message, p: int, limit: nat)
    requires Serving(w, limit) && DueOrQuit(w, m, p) && forall a :: a in actions ==> Attends(a, limit)
    ensures Serving(Run(w, actions), limit)
    ensures DueOrQuit(Run(w, actions), m, FarAhead(p, UpdatesIn(actions), limit))
    decreases |actions|
  {
    if actions == [] {
    } else {
      var a, rest := actions[0], actions[1..];
      var q := if a.Update? then Ahead(p, limit) else p;
      assert Serving(Performed(w, a), limit) && DueOrQuit(Performed(w, a), m, q) by {
        CallServes(w, a, limit);
        CallDueOrQuit(w, a, m, p, limit);
      }
      RunAdvances(Performed(w, a), rest, m, q, limit);
      FarAheadStep(p, actions, limit);
    }
  }

  lemma FarAheadStep(p: int, actions: seq<Action>, limit: nat)
    requires actions != []
    ensures FarAhead(p, UpdatesIn(actions), limit) ==
      FarAhead(if actions[0].Update? then Ahead(p, limit) else p, UpdatesIn(actions[1..]), limit)
  {
  }

  /**
   Delivery latency: with a packet callback and a positive limit, the packet at position `p` was not
   handed over before, and after any calls among which there are `p / limit` updates it is by one more,
   unless its connection is closed or quit was requested before that one.
   */
  lemma DeliveredWithin(w: World, calls: seq<Action>, p: nat, limit: nat)
    requires Serving(w, limit) && limit > 0 && p < |w.net.inbox|
    requires (forall a :: a in calls ==> Attends(a, limit)) && UpdatesIn(calls) >= p / limit
    ensures var m, v := w.net.inbox[p], Run(w, calls);
      && m !in w.history.delivered
      && (v.quit || m in Updated(v).history.delivered || m.from !in Updated(v).connections)
  {
    var m, n := w.net.inbox[p], UpdatesIn(calls);
    WaitingIsNew(w, p);
    RunAdvances(w, calls, m, p, limit);
    LastRound(p, n, limit);
    FarAheadIsFirst(p, n, limit);
    var v := Run(w, calls);
    if !v.quit {
      LastUpdate(v, m, FarAhead(p, n, limit), limit);
    }
  }

  lemma LastRound(p: nat, n: nat, limit: nat)
    requires limit > 0 && n >= p / limit
    ensures p < n * limit + limit
  {
    assert p < p / limit * limit + limit;
    assert n * limit == p / limit * limit + (n - p / limit) * limit;
    assert 0 <= (n - p / limit) * limit;
  }

  lemma LastUpdate(u: World, m: Message, q: int, limit: nat)
    requires Serving(u, limit) && !u.quit && Due(u, m, q) && q < limit
    ensures m in Updated(u).history.delivered || m.from !in Updated(u).connections
  {
    DueAdvances(u, m, q, limit);
    UpdatedKeeps(u);
    ClosedIsGone(Updated(u), m.from);
  }

  lemma ClosedIsGone(w: World, h: Handle)
    requires Inv(w)
    ensures w.net.closed[h] > 0 ==> h !in w.connections
  {
  }
}
