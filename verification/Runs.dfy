/**
 Whole runs: any sequence of calls, interleaved in any way with the environment, and what holds
 after every one of them.
 */
module Runs {
  import opened Transport
  import opened TransportProofs
  import opened ServerModel
  import opened Invariant
  import opened ServerProofs
  import opened OperationProofs

  /**
   The calls of the server's interface, and the single rounds of an update, so that the states
   between two callbacks of an update are states of a run too.
   */
  datatype Action =
    | Open(addressOk: bool)
    | Update
    | Close
    | Broadcast(bytes: seq<byte>, kind: SendType, except: Handle)
    | SendTo(h: Handle, bytes: seq<byte>, kind: SendType)
    | Expel(h: Handle)
    | UsePacketCallback(on: bool)
    | LimitPackets(n: nat)
    | DrainRound
    | DispatchRound
    | ReadRound

  /** Naming a client that is not registered throws before anything is changed. */
  function Performed(w: World, a: Action): World {
    match a
    case Open(addressOk) => Opened(w, addressOk)
    case Update => Updated(w)
    case Close => ClosedServer(w)
    case Broadcast(bytes, kind, except) => SentToAll(w, Data(bytes), kind, except)
    case SendTo(h, bytes, kind) => if h in w.connections then SentOne(w, h, Data(bytes), kind) else w
    case Expel(h) => if h in w.connections then Expelled(w, h) else w
    case UsePacketCallback(on) => w.(packetCallback := on)
    case LimitPackets(n) => w.(maxPackets := n)
    case DrainRound => if w.quit || !w.running || !w.packetCallback then w else DrainedOne(w).0
    case DispatchRound => if w.quit || !w.running then w else DispatchedOne(w).0
    case ReadRound => if w.quit || !w.running then w else ReadOne(w).0
  }

  function Run(w: World, actions: seq<Action>): World
    decreases |actions|
  {
    if actions == [] then w else Run(Performed(w, actions[0]), actions[1..])
  }

  /** A server that is running is not opened again. */
  predicate Lawful(w: World, actions: seq<Action>)
    decreases |actions|
  {
    actions == [] || ((actions[0].Open? ==> !w.running) && Lawful(Performed(w, actions[0]), actions[1..]))
  }

  // ---------------------------------------------------------------- one update

  /** What dispatching status events leaves alone. */
  ghost predicate OnlyDispatched(w: World, v: World) {
    && v.running == w.running && v.quit == w.quit && v.input == w.input
    && v.packetCallback == w.packetCallback && v.maxPackets == w.maxPackets
    && v.history.delivered == w.history.delivered && v.history.closeCalled == w.history.closeCalled
    && v.history.expelled == w.history.expelled
    && Framed(w, v)
  }

  lemma OnlyDispatchedOn(w: World, v: World, u: World)
    requires OnlyDispatched(w, v) && OnlyDispatched(v, u)
    ensures OnlyDispatched(w, u)
  {
  }

  lemma NetLeaves(w: World, n: Net)
    requires SameIds(w.net, n) && n.member == w.net.member
    ensures OnlyDispatched(w, w.(net := n))
  {
  }

  lemma DispatchRoundLeaves(w: World)
    ensures OnlyDispatched(w, DispatchedOne(w).0)
  {
    var (n, callback) := NextCallback(w.net);
    var v := w.(net := n);
    YieldEvolves(w.net);
    NetLeaves(w, n);
    if callback.Report? {
      HandlerLeaves(v, callback.event);
      OnlyDispatchedOn(w, v, OnStatusChange(v, callback.event));
    }
  }

  lemma ClosedClientLeaves(w: World, h: Handle)
    ensures OnlyDispatched(w, ClosedClient(w, h))
  {
  }

  lemma AnnouncedLeaves(w: World, h: Handle)
    ensures OnlyDispatched(w, Announced(w, h))
  {
  }

  lemma GroupedLeaves(w: World, h: Handle)
    requires h in w.connections
    ensures OnlyDispatched(w, Grouped(w, h).0)
  {
    YieldEvolves(w.net);
  }

  lemma AcceptedLeaves(w: World, h: Handle)
    ensures h !in w.connections ==> OnlyDispatched(w, Accepted(Created(w, h), h).0)
  {
    YieldEvolves(w.net);
  }

  lemma GroupedOrClosedLeaves(w: World, h: Handle)
    requires h in w.connections
    ensures OnlyDispatched(w, GroupedOrClosed(w, h))
  {
    var grouped := Grouped(w, h).0;
    GroupedLeaves(w, h);
    AnnouncedLeaves(grouped, h);
    ClosedClientLeaves(grouped, h);
    OnlyDispatchedOn(w, grouped, GroupedOrClosed(w, h));
  }

  lemma OnConnectingLeaves(w: World, h: Handle)
    ensures OnlyDispatched(w, OnConnecting(w, h))
  {
    if h !in w.connections {
      AcceptedLeaves(w, h);
      var accepted := Accepted(Created(w, h), h).0;
      GroupedOrClosedLeaves(accepted, h);
      ClosedClientLeaves(accepted, h);
      OnlyDispatchedOn(w, accepted, OnConnecting(w, h));
    }
  }

  lemma OnDroppedLeaves(w: World, h: Handle, was: Status)
    ensures OnlyDispatched(w, OnDropped(w, h, was))
  {
    var told := SentToAll(w, Left(h), Reliable, h);
    ClosedClientLeaves(w, h);
    ClosedClientLeaves(told, h);
    NetLeaves(w, told.net);
    OnlyDispatchedOn(w, told, ClosedClient(told, h));
  }

  lemma HandlerLeaves(w: World, e: Event)
    ensures OnlyDispatched(w, OnStatusChange(w, e))
  {
    if e.oldStatus in MAPPED && e.currentStatus in MAPPED {
      HandledAs(w, e);
      if e.currentStatus == Connecting {
        OnConnectingLeaves(w, e.connection);
      } else if Lost(e.currentStatus) {
        OnDroppedLeaves(w, e.connection, e.oldStatus);
      }
    } else {
      UnmappedLeaves(w, e);
    }
  }

  lemma UnmappedLeaves(w: World, e: Event)
    requires e.oldStatus !in MAPPED || e.currentStatus !in MAPPED
    ensures OnlyDispatched(w, OnStatusChange(w, e))
  {
  }

  ghost predicate Dispatching(w: World, v: World) {
    Inv(v) && v.running && OnlyDispatched(w, v)
  }

  lemma DispatchGoesOn(w: World, v: World)
    requires Dispatching(w, v)
    ensures Dispatching(w, DispatchedOne(v).0)
  {
    DispatchedOneKeeps(v);
    DispatchRoundLeaves(v);
    OnlyDispatchedOn(w, v, DispatchedOne(v).0);
  }

  lemma DispatchedKeeps(w: World)
    requires Inv(w) && w.running
    ensures Dispatching(w, Dispatched(w))
  {
    forall v | Dispatching(w, v) ensures Dispatching(w, DispatchedOne(v).0) {
      DispatchGoesOn(w, v);
    }
    DispatchLoop(w, (v: World) => Dispatching(w, v));
  }

  /** The stages of an update that is not skipped: every one of them is reached and keeps the invariant. */
  lemma UpdateStages(w: World)
    requires Inv(w) && w.running && !w.quit
    ensures var drained := PendingPackets(w);
      var dispatched := Dispatched(drained);
      && Draining(w, drained) && Dispatching(drained, dispatched) && ReadDone(dispatched, ReadAll(dispatched))
      && Updated(w) == ReadAll(dispatched)
  {
    if w.packetCallback {
      DrainedKeeps(w, w.maxPackets);
    }
    DispatchedKeeps(PendingPackets(w));
    ReadAllKeeps(Dispatched(PendingPackets(w)));
  }

  lemma UpdatedKeeps(w: World)
    requires Inv(w)
    ensures Inv(Updated(w))
  {
    if w.running && !w.quit {
      UpdateStages(w);
    }
  }

  function UpdateRound(w: World): (World, bool) {
    (Updated(w), true)
  }

  /** What `n` updates make of `w`. */
  function Updates(w: World, n: nat): World {
    Repeat(UpdateRound, n, w)
  }

  // ---------------------------------------------------------------- the invariant over runs

  lemma SettingsAreIrrelevant(w: World, on: bool, n: nat)
    requires Inv(w)
    ensures Inv(w.(packetCallback := on)) && Inv(w.(maxPackets := n))
  {
    SettingKeeps(w, w.(packetCallback := on));
    SettingKeeps(w, w.(maxPackets := n));
  }

  lemma SettingKeeps(w: World, v: World)
    requires Inv(w) && v == w.(packetCallback := v.packetCallback, maxPackets := v.maxPackets)
    ensures Inv(v)
  {
    assert Ledger(v) && Settled(v) by {
      BooksKept(w, v);
    }
    NotifiedKept(w, v);
  }

  lemma RoundsKeep(w: World)
    requires Inv(w) && w.running
    ensures Inv(DrainedOne(w).0) && Inv(DispatchedOne(w).0) && (!w.quit ==> Inv(ReadOne(w).0))
  {
    DrainedOneKeeps(w);
    DispatchedOneKeeps(w);
    if !w.quit {
      ReadOneKeeps(w);
    }
  }

  /** Every call, a reopening included, and every single round of an update keeps the invariant. */
  lemma ActionKeeps(w: World, a: Action)
    requires Inv(w)
    ensures Inv(Performed(w, a))
  {
    match a
    case Open(addressOk) => OpenedKeeps(w, addressOk);
    case Update => UpdatedKeeps(w);
    case Close => ClosedServerKeeps(w);
    case Broadcast(bytes, kind, except) => BroadcastKeeps(w, bytes, kind, except);
    case SendTo(h, bytes, kind) =>
      if h in w.connections {
        SendKeeps(w, h, bytes, kind);
      }
    case Expel(h) =>
      if h in w.connections {
        ExpelledKeeps(w, h);
      }
    case UsePacketCallback(on) => SettingsAreIrrelevant(w, on, 0);
    case LimitPackets(n) => SettingsAreIrrelevant(w, true, n);
    case _ =>
      if w.running {
        RoundsKeep(w);
      }
  }

  /** The invariant holds after every run. */
  lemma {:induction false} RunKeeps(w: World, actions: seq<Action>)
    requires Inv(w)
    ensures Inv(Run(w, actions))
    decreases |actions|
  {
    if actions == [] {
    } else {
      ActionKeeps(w, actions[0]);
      RunKeeps(Performed(w, actions[0]), actions[1..]);
    }
  }

  /** The calls of a run of `n` updates. */
  function UpdateCalls(n: nat): seq<Action> {
    seq(n, _ => Update)
  }

  lemma {:induction false} UpdatesAreARun(w: World, n: nat)
    ensures Run(w, UpdateCalls(n)) == Updates(w, n)
    decreases n
  {
    if n == 0 {
    } else {
      UpdatesAreARun(Updated(w), n - 1);
      UpdateCallsStep(w, n);
      UpdatesStep(w, n);
    }
  }

  lemma UpdateCallsStep(w: World, n: nat)
    requires n > 0
    ensures Run(w, UpdateCalls(n)) == Run(Updated(w), UpdateCalls(n - 1))
  {
    assert UpdateCalls(n)[1..] == UpdateCalls(n - 1);
  }

  lemma UpdatesStep(w: World, n: nat)
    requires n > 0
    ensures Updates(w, n) == Updates(Updated(w), n - 1)
  {
  }

  // ---------------------------------------------------------------- lawful runs

  lemma UpdatedFrame(w: World)
    requires Inv(w) && w.running
    ensures Framed(w, Updated(w))
  {
    if !w.quit {
      UpdateStages(w);
    }
  }

  lemma ReadRoundFrame(w: World)
    ensures Framed(w, ReadOne(w).0)
  {
    ReadRoundIs(w);
    OnlyInputFrame(w, ReadOne(w).0);
  }

  lemma ReadRoundIs(w: World)
    ensures var v := ReadOne(w).0; v == w.(input := v.input, quit := v.quit, fault := v.fault)
  {
  }

  lemma OnlyInputFrame(w: World, v: World)
    requires v == w.(input := v.input, quit := v.quit, fault := v.fault)
    ensures Framed(w, v)
  {
  }

  lemma RoundsFrame(w: World)
    requires Inv(w) && w.running
    ensures Framed(w, DrainedOne(w).0) && Framed(w, DispatchedOne(w).0) && Framed(w, ReadOne(w).0)
  {
    assert Framed(w, DrainedOne(w).0) by {
      RoundKeeps(w);
    }
    assert Framed(w, DispatchedOne(w).0) by {
      DispatchRoundLeaves(w);
    }
    ReadRoundFrame(w);
  }

  lemma ExpelledFrame(w: World, h: Handle)
    requires Inv(w) && h in w.connections
    ensures Framed(w, Expelled(w, h)) && Expelled(w, h).connections.Keys <= w.connections.Keys
  {
    var v := w.(history := w.history.(expelled := w.history.expelled + {h}));
    ClosedClientLeaves(v, h);
    ExpelledKeeps(w, h);
  }

  /** Every call but opening and closing leaves the server's handles and the old members' groups alone. */
  lemma ActionFrame(w: World, a: Action)
    requires Inv(w) && !a.Open? && !a.Close?
    ensures var v := Performed(w, a); Framed(w, v) && (w.running || v.connections.Keys <= w.connections.Keys)
  {
    if a.Update? || a.DrainRound? || a.DispatchRound? || a.ReadRound? {
      UpdateOrRoundFrame(w, a);
    } else if a.Expel? && a.h in w.connections {
      ExpelledFrame(w, a.h);
    } else {
      SettingFrame(w, a);
    }
  }

  lemma UpdateOrRoundFrame(w: World, a: Action)
    requires Inv(w) && (a.Update? || a.DrainRound? || a.DispatchRound? || a.ReadRound?)
    ensures if w.running then Framed(w, Performed(w, a)) else Performed(w, a) == w
  {
    if w.running {
      UpdatedFrame(w);
      RoundsFrame(w);
    }
  }

  lemma SettingFrame(w: World, a: Action)
    requires a.Broadcast? || a.SendTo? || a.UsePacketCallback? || a.LimitPackets? || (a.Expel? && a.h !in w.connections)
    ensures Framed(w, Performed(w, a)) && Performed(w, a).connections == w.connections
  {
  }

  /** Every call but opening a running server keeps the order of the server's handles, too. */
  lemma ActionOrderly(w: World, a: Action)
    requires Orderly(w) && (a.Open? ==> !w.running)
    ensures Orderly(Performed(w, a))
  {
    match a
    case Open(addressOk) => OpenedTidy(w, addressOk);
    case Close => ClosedServerKeeps(w);
    case _ =>
      ActionKeeps(w, a);
      ActionFrame(w, a);
      FramedKeepsTidy(w, Performed(w, a));
  }

  lemma {:induction false} LawfulRunKeeps(w: World, actions: seq<Action>)
    requires Orderly(w) && Lawful(w, actions)
    ensures Orderly(Run(w, actions))
    decreases |actions|
  {
    if actions == [] {
    } else {
      ActionOrderly(w, actions[0]);
      LawfulRunKeeps(Performed(w, actions[0]), actions[1..]);
    }
  }
}
