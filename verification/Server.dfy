/**
 The server as the source has it: an object that updates its registry, its flags and the library
 in place, and the example program's status handler.  Every method is proved to do to the state
 what the corresponding function of `ServerModel` says, on states that meet the invariant.
 */
module Servers {
  import opened Transport
  import opened TransportProofs
  import opened InputQueue
  import opened ClientConnections
  import opened ServerModel
  import opened Invariant
  import opened ServerProofs
  import opened OperationProofs
  import opened Runs

  // ---------------------------------------------------------------- sends and closes one by one

  lemma {:induction false} WithoutNone(ms: seq<Message>)
    ensures Without(ms, {}) == ms
  {
    if ms == [] {
    } else {
      WithoutNone(ms[1..]);
    }
  }

  lemma {:induction false} WithoutMore(ms: seq<Message>, hs: set<Handle>, h: Handle)
    ensures Without(Without(ms, hs), {h}) == Without(ms, hs + {h})
  {
    if ms == [] {
    } else {
      WithoutMore(ms[1..], hs, h);
      if ms[0].from !in hs {
        var rest := Without(ms[1..], hs);
        assert ([ms[0]] + rest)[1..] == rest;
      }
    }
  }

  lemma CloseAllNone(n: Net)
    ensures CloseAll(n, {}) == n
  {
    WithoutNone(n.inbox);
    assert n.pending - {} == n.pending && n.member - {} == n.member;
  }

  lemma CloseAllMore(n: Net, hs: set<Handle>, h: Handle)
    requires h !in hs
    ensures Transport.CloseConnection(CloseAll(n, hs), h) == CloseAll(n, hs + {h})
  {
    WithoutMore(n.inbox, hs, h);
    assert n.pending - hs - {h} == n.pending - (hs + {h});
    assert n.member - hs - {h} == n.member - (hs + {h});
    assert multiset(hs + {h}) == multiset(hs) + multiset{h};
  }

  lemma ShutNone(r: map<Handle, Conn>)
    ensures EntriesShut(r, {}) == r
  {
  }

  lemma ShutMore(r: map<Handle, Conn>, hs: set<Handle>, h: Handle)
    requires h in r && h !in hs
    ensures EntriesShut(r, hs)[h := EntriesShut(r, hs)[h].(state := StateClosed)] == EntriesShut(r, hs + {h})
  {
  }

  /** Closing the entry of `h` where it is. */
  ghost function ClosedOne(w: World, h: Handle): World
    requires h in w.connections
  {
    var c := w.connections[h];
    w.(net := Transport.CloseConnection(w.net, c.handle), connections := w.connections[h := c.(state := StateClosed)])
  }

  /** `closed` says, for each set of closed entries, what the state is. */
  ghost predicate ClosePlan(keys: set<Handle>, closed: set<Handle> -> World) {
    && (forall done :: closed(done).connections.Keys == keys)
    && (forall done, h {:trigger ClosedOne(closed(done), h)} :: h in keys && h !in done ==>
         ClosedOne(closed(done), h) == closed(done + {h}))
  }

  /** `w` with the entries of `done` closed. */
  ghost function Closing(w: World, done: set<Handle>): World {
    w.(net := CloseAll(w.net, done), connections := EntriesShut(w.connections, done))
  }

  lemma ClosingMore(w: World, done: set<Handle>, h: Handle)
    requires h in w.connections && w.connections[h].handle == h && h !in done
    ensures ClosedOne(Closing(w, done), h) == Closing(w, done + {h})
  {
    CloseAllMore(w.net, done, h);
    ShutMore(w.connections, done, h);
  }

  lemma ClosingKeys(w: World, done: set<Handle>)
    ensures Closing(w, done).connections.Keys == w.connections.Keys
  {
  }

  lemma ClosingNone(w: World)
    ensures Closing(w, {}) == w
  {
    CloseAllNone(w.net);
    ShutNone(w.connections);
  }

  lemma CloseIsPlanned(w: World) returns (closed: set<Handle> -> World)
    requires forall h :: h in w.connections ==> w.connections[h].handle == h
    ensures ClosePlan(w.connections.Keys, closed)
    ensures closed({}) == w && closed(w.connections.Keys) == Closing(w, w.connections.Keys)
  {
    forall done ensures Closing(w, done).connections.Keys == w.connections.Keys {
      ClosingKeys(w, done);
    }
    forall done, h | h in w.connections && h !in done
      ensures ClosedOne(Closing(w, done), h) == Closing(w, done + {h})
    {
      ClosingMore(w, done, h);
    }
    ClosingNone(w);
    closed := (done: set<Handle>) => Closing(w, done);
  }

  lemma InvIsKeyed(w: World)
    requires Inv(w)
    ensures forall h :: h in w.connections ==> h != INVALID && w.connections[h].handle == h
  {
    assert INVALID !in w.net.Engaged();
  }

  /** The next receive call does not fail, and what it returns comes from a registered connection. */
  ghost predicate Receivable(w: World) {
    var received := ReceiveMessageOnPollGroup(w.net, w.group).1;
    !received.Failure? && (received.Got? ==> received.message.from in w.connections)
  }

  /** What the handler asserts about an event, its statuses being in the status table. */
  ghost predicate Manageable(r: map<Handle, Conn>, e: Event) {
    && e.oldStatus in MAPPED && e.currentStatus in MAPPED
    && (Lost(e.currentStatus) ==> e.connection in r)
    && (e.currentStatus == Connecting ==> e.connection !in r && e.connection != INVALID)
    && (forall h :: h in r ==> h != INVALID && r[h].handle == h)
  }

  ghost predicate Reporting(w: World) {
    var callback := NextCallback(w.net).1;
    callback.Report? ==> Manageable(w.connections, callback.event)
  }

  lemma InvIsReceivable(w: World)
    requires Inv(w) && w.running
    ensures Receivable(w)
  {
    ReceiveKeeps(w.net, w.group);
  }

  lemma InvIsReporting(w: World)
    requires Inv(w) && w.running
    ensures Reporting(w)
  {
    InvIsKeyed(w);
    DispatchedOneKeeps(w);
    NextCallbackKeeps(w.net);
  }

  // ---------------------------------------------------------------- loops

  /** In none of the rounds that are left does receiving fail or find a packet of an unregistered connection. */
  ghost predicate Drainable(w: World, rounds: nat)
    decreases rounds
  {
    rounds > 0 ==> Receivable(w) && (DrainedOne(w).1 ==> Drainable(DrainedOne(w).0, rounds - 1))
  }

  /** Every event that is reported from now on meets what the handler asserts about it. */
  ghost predicate Dispatchable(w: World)
    decreases |w.net.script|
  {
    Reporting(w) && (DispatchedOne(w).1 ==> Dispatchable(DispatchedOne(w).0))
  }

  lemma {:induction false} InvIsDrainable(w: World, rounds: nat)
    requires Inv(w) && w.running
    ensures Drainable(w, rounds)
    decreases rounds
  {
    if rounds == 0 {
    } else {
      InvIsReceivable(w);
      RoundKeeps(w);
      InvIsDrainable(DrainedOne(w).0, rounds - 1);
    }
  }

  lemma {:induction false} InvIsDispatchable(w: World)
    requires Inv(w) && w.running
    ensures Dispatchable(w)
    decreases |w.net.script|
  {
    InvIsReporting(w);
    if DispatchedOne(w).1 {
      DispatchedOneKeeps(w);
      DispatchRoundLeaves(w);
      InvIsDispatchable(DispatchedOne(w).0);
    }
  }

  /** A state of the drain that ends in `result`, with `rounds` rounds to go. */
  ghost predicate DrainLeft(result: World, v: World, rounds: nat) {
    Drainable(v, rounds) && Drained(v, rounds) == result
  }

  lemma DrainStep(result: World, v: World, rounds: nat)
    requires DrainLeft(result, v, rounds)
    ensures if rounds == 0 then v == result
            else if DrainedOne(v).1 then Receivable(v) && DrainLeft(result, DrainedOne(v).0, rounds - 1)
            else Receivable(v) && DrainedOne(v).0 == result
  {
  }

  /** From every state with rounds to go of which `left` holds, the drain goes on to such states up to `result`. */
  ghost predicate DrainGoing(left: (World, nat) -> bool, result: World) {
    && (forall v, k: nat {:trigger left(v, k), Receivable(v)} :: left(v, k) && k > 0 ==> Receivable(v))
    && (forall v, k: nat {:trigger left(v, k), DrainedOne(v)} ::
          left(v, k) && k > 0 && DrainedOne(v).1 ==> left(DrainedOne(v).0, k - 1))
    && (forall v, k: nat {:trigger left(v, k), DrainedOne(v)} ::
          left(v, k) && k > 0 && !DrainedOne(v).1 ==> DrainedOne(v).0 == result)
    && (forall v, k: nat :: left(v, k) && k == 0 ==> v == result)
  }

  lemma DrainIsPlanned(w: World) returns (left: (World, nat) -> bool)
    requires Drainable(w, w.maxPackets)
    ensures left(w, w.maxPackets) && DrainGoing(left, Drained(w, w.maxPackets))
  {
    var result := Drained(w, w.maxPackets);
    assert DrainLeft(result, w, w.maxPackets);
    forall v, k: nat | DrainLeft(result, v, k)
      ensures if k == 0 then v == result
              else if DrainedOne(v).1 then Receivable(v) && DrainLeft(result, DrainedOne(v).0, k - 1)
              else Receivable(v) && DrainedOne(v).0 == result
    {
      DrainStep(result, v, k);
    }
    left := (v: World, k: nat) => DrainLeft(result, v, k);
  }

  /** A state of the dispatch loop that ends in `result`. */
  ghost predicate DispatchLeft(result: World, v: World) {
    Dispatchable(v) && Dispatched(v) == result
  }

  lemma DispatchStep(result: World, v: World)
    requires DispatchLeft(result, v)
    ensures Reporting(v)
    ensures if DispatchedOne(v).1 then DispatchLeft(result, DispatchedOne(v).0) else DispatchedOne(v).0 == result
  {
    DispatchedStep(v);
  }

  /** `left` holds of the dispatch loop's states from `w` up to `result`. */
  ghost predicate DispatchPlan(w: World, left: World -> bool, result: World) {
    && left(w)
    && (forall v {:trigger left(v), Reporting(v)} :: left(v) ==> Reporting(v))
    && (forall v {:trigger left(v), DispatchedOne(v)} :: left(v) && DispatchedOne(v).1 ==> left(DispatchedOne(v).0))
    && (forall v {:trigger left(v), DispatchedOne(v)} ::
          left(v) && !DispatchedOne(v).1 ==> DispatchedOne(v).0 == result)
  }

  lemma DispatchIsPlanned(w: World) returns (left: World -> bool)
    requires Dispatchable(w)
    ensures DispatchPlan(w, left, Dispatched(w))
  {
    var result := Dispatched(w);
    forall v | DispatchLeft(result, v)
      ensures Reporting(v)
      ensures if DispatchedOne(v).1 then DispatchLeft(result, DispatchedOne(v).0) else DispatchedOne(v).0 == result
    {
      DispatchStep(result, v);
    }
    left := (v: World) => DispatchLeft(result, v);
  }

  /** `left` holds of the input loop's states from `w` up to `result`. */
  ghost predicate ReadPlan(w: World, left: World -> bool, result: World) {
    && left(w)
    && (forall v {:trigger left(v), ReadOne(v)} :: left(v) && ReadOne(v).1 ==> left(ReadOne(v).0))
    && (forall v {:trigger left(v), ReadOne(v)} :: left(v) && !ReadOne(v).1 ==> ReadOne(v).0 == result)
  }

  lemma ReadIsPlanned(w: World) returns (left: World -> bool)
    ensures ReadPlan(w, left, ReadAll(w))
  {
    forall v | ReadAll(v) == ReadAll(w)
      ensures if ReadOne(v).1 then ReadAll(ReadOne(v).0) == ReadAll(w) else ReadOne(v).0 == ReadAll(w)
    {
      ReadStep(v);
    }
    left := (v: World) => ReadAll(v) == ReadAll(w);
  }

  lemma UpdateIs(w: World)
    requires Inv(w) && w.running && !w.quit
    ensures Drainable(w, w.maxPackets) && Dispatchable(PendingPackets(w))
    ensures Updated(w) == ReadAll(Dispatched(PendingPackets(w)))
  {
    UpdateStages(w);
    InvIsDrainable(w, w.maxPackets);
    InvIsDispatchable(PendingPackets(w));
  }

  lemma HandlerIsFaultless(w: World, e: Event)
    requires w.fault == NoFault && Manageable(w.connections, e)
    ensures OnStatusChange(w, e).fault == NoFault
  {
    if e.currentStatus == Connecting {
      ConnectingIsFaultless(w, e.connection);
    }
  }

  lemma ConnectingIsFaultless(w: World, h: Handle)
    requires w.fault == NoFault && h !in w.connections
    ensures OnConnecting(w, h).fault == NoFault
  {
    AcceptedIs(w, h);
  }

  /** A packet small enough for its size to be passed on as it is. */
  predicate Whole(packet: Packet) {
    packet.Data? ==> |packet.bytes| < 0x1_0000_0000
  }

  /** From `n` to `m` each connected entry of `r` but `except` was sent `s` once, and nobody else anything. */
  ghost predicate OneCopyEach(n: Net, m: Net, r: map<Handle, Conn>, except: Handle, s: Send) {
    forall h {:trigger m.SentTo(h)} ::
      m.SentTo(h) == n.SentTo(h) + if h in r && h != except && r[h].state == StateConnected then [s] else []
  }

  lemma WholeIsSubmitted(packet: Packet)
    requires Whole(packet)
    ensures Submitted(packet) == packet
  {
  }

  class Server {
    const sockets: Sockets
    const input: InputController
    var connections: map<Handle, ClientConnection>
    var running: bool
    var quitRequested: bool
    var listeningSocket: SocketId
    var pollGroup: GroupId
    var packetCallback: bool
    var maxProcessedPackets: nat
    ghost var registry: map<Handle, Conn>        // the values of the registry's entries
    ghost var objects: set<ClientConnection>     // every entry the registry ever had
    ghost var history: History

    /** The entry under a key is an object with that key for its handle, on the server's library, and
        `registry` says what is in it; entries under different keys are therefore different objects. */
    ghost predicate Owned()
      reads this`connections, this`registry, this`objects, objects
    {
      && registry.Keys == connections.Keys
      && (forall h :: h in connections ==> connections[h] in objects)
      && (forall h :: h in connections ==> connections[h].sockets == sockets && connections[h].View() == registry[h])
      && (forall h :: h in connections ==> connections[h].handle == h)
    }

    /** The entry under a key holds that key as its handle; this is kept by every run. */
    ghost predicate Keyed()
      reads this`registry
    {
      forall h :: h in registry ==> h != INVALID && registry[h].handle == h
    }

    ghost function View(): World
      reads this, sockets, input
    {
      World(registry, running, quitRequested, listeningSocket, pollGroup, packetCallback, maxProcessedPackets,
            sockets.net, input.View(), history, NoFault)
    }

    /** A server on a fresh library; what its socket and poll group contain is not determined. */
    constructor (sockets: Sockets, input: InputController)
      ensures Owned() && this.sockets == sockets && this.input == input
      ensures registry == map[] && objects == {} && !running && !quitRequested
      ensures !packetCallback && maxProcessedPackets == 5
      ensures history == NOTHING_YET
    {
      this.sockets, this.input := sockets, input;
      connections, registry, objects := map[], map[], {};
      running, quitRequested, packetCallback, maxProcessedPackets := false, false, false, 5;
      history := NOTHING_YET;
    }

    // -------------------------------------------------------------- registry

    method CreateClientConnection(h: Handle) returns (c: ClientConnection)
      requires Owned()
      modifies this`connections, this`registry, this`objects, this`history
      ensures Owned() && View() == Created(old(View()), h)
      ensures h in connections && c == connections[h] && connections == old(connections)[h := c]
      ensures h !in old(connections) ==> fresh(c)
      ensures fresh(objects - old(objects))
    {
      if h !in connections {
        c := new ClientConnection(sockets, h);
        connections := connections[h := c];
        registry := registry[h := NewConn(h)];
        objects := objects + {c};
      }
      c := connections[h];
      history := history.(created := history.created + {h});
    }

    method RemoveClientConnection(h: Handle)
      requires Owned() && h in connections && connections[h].state == StateClosed
      modifies this`connections, this`registry
      ensures Owned() && connections == old(connections) - {h}
      ensures View() == Removed(old(View()), h)
    {
      connections[h].Destroy();
      connections := connections - {h};
      registry := registry - {h};
    }

    /** Closes the entry of `h` where it is. */
    method CloseEntry(h: Handle)
      requires Owned() && h in connections
      modifies this`registry, sockets, connections[h]
      ensures Owned() && View() == ClosedOne(old(View()), h)
    {
      connections[h].Close();
      registry := registry[h := registry[h].(state := StateClosed)];
    }

    method CloseClientConnection(h: Handle)
      requires Owned() && h in connections
      modifies this`connections, this`registry, sockets, connections[h]
      ensures Owned() && connections == old(connections) - {h}
      ensures View() == ClosedClient(old(View()), h)
    {
      CloseEntry(h);
      RemoveClientConnection(h);
    }

    // -------------------------------------------------------------- sending

    method SendPacketToClientImpl(h: Handle, packet: Packet, kind: SendType)
      modifies sockets
      ensures sockets.net == SendMessageToConnection(old(sockets.net), h, Send(Submitted(packet), kind))
      ensures Whole(packet) ==> sockets.net.SentTo(h) == old(sockets.net).SentTo(h) + [Send(packet, kind)]
    {
      if Whole(packet) {
        WholeIsSubmitted(packet);
      }
      sockets.SendMessage(h, Send(Submitted(packet), kind));
    }

    /** One copy for every connected entry but `except`, in whatever order the entries come. */
    method SendPacketToAllConnectedClientsImpl(packet: Packet, kind: SendType, except: ClientConnection?)
      requires Owned() && Keyed()
      modifies sockets
      ensures View() == SentToAll(old(View()), packet, kind, if except == null then INVALID else except.handle)
      ensures Whole(packet) ==> OneCopyEach(old(sockets.net), sockets.net, registry,
                                            if except == null then INVALID else except.handle, Send(packet, kind))
    {
      ghost var skip := if except == null then INVALID else except.handle;
      ghost var audience := Audience(View(), skip);
      ghost var s := Send(Submitted(packet), kind);
      ghost var done: set<Handle> := {};
      var remaining := connections.Keys;
      SendAllNone(sockets.net, s);
      while remaining != {}
        invariant remaining <= connections.Keys
        invariant done <= audience && done !! remaining && audience <= done + remaining
        invariant sockets.net == SendAll(old(sockets.net), done, s)
        decreases remaining
      {
        var h :| h in remaining;
        remaining := remaining - {h};
        var c := connections[h];
        if !(except != null && except.handle == h) && c.state == StateConnected {
          SendAllMore(old(sockets.net), done, h, s);
          SendPacketToClientImpl(c.handle, packet, kind);
          done := done + {h};
        }
      }
      assert done == audience;
      if Whole(packet) {
        WholeIsSubmitted(packet);
      }
    }

    method SendReliablePacket(packet: Packet, c: ClientConnection)
      modifies sockets
      ensures View() == SentOne(old(View()), c.handle, packet, Reliable)
    {
      SendPacketToClientImpl(c.handle, packet, Reliable);
    }

    method SendUnreliablePacket(packet: Packet, c: ClientConnection)
      modifies sockets
      ensures View() == SentOne(old(View()), c.handle, packet, Unreliable)
    {
      SendPacketToClientImpl(c.handle, packet, Unreliable);
    }

    // -------------------------------------------------------------- one update

    /** Hands a packet to the packet callback, which records it. */
    method ProcessPendingPacket(m: Message)
      requires m.from in connections
      modifies this`history
      ensures View() == old(View()).(history := old(history).(delivered := old(history).delivered + [m]))
    {
      history := history.(delivered := history.delivered + [m]);
    }

    /** One round of the drain. */
    method DrainRound() returns (more: bool)
      requires registry.Keys == connections.Keys && Receivable(View())
      modifies this`history, sockets
      ensures (View(), more) == DrainedOne(old(View()))
    {
      var received := sockets.Receive(pollGroup);
      if received == Empty {
        return false;
      }
      ProcessPendingPacket(received.message);
      return true;
    }

    /** The drain. */
    method ProcessPendingPackets()
      requires registry.Keys == connections.Keys
      requires packetCallback ==> Drainable(View(), maxProcessedPackets)
      modifies this`history, sockets
      ensures View() == PendingPackets(old(View()))
      ensures !packetCallback ==> sockets.net == old(sockets.net) && history == old(history)
    {
      if !packetCallback {
        return;
      }
      ghost var left := DrainIsPlanned(View());
      DrainPackets(left, Drained(View(), maxProcessedPackets));
    }

    /** The loop of the drain; `left` holds of its states, with the rounds to go, up to the last. */
    method DrainPackets(ghost left: (World, nat) -> bool, ghost result: World)
      requires registry.Keys == connections.Keys && left(View(), maxProcessedPackets) && DrainGoing(left, result)
      modifies this`history, sockets
      ensures View() == result
    {
      var packetIndex := 0;
      ghost var rounds: nat := maxProcessedPackets;
      while packetIndex < maxProcessedPackets
        invariant packetIndex + rounds == maxProcessedPackets && left(View(), rounds)
      {
        var more := DrainPacket(left, result, rounds);
        if !more {
          break;
        }
        packetIndex, rounds := packetIndex + 1, rounds - 1;
      }
    }

    /** A round of the drain within its loop. */
    method DrainPacket(ghost left: (World, nat) -> bool, ghost result: World, ghost rounds: nat) returns (more: bool)
      requires registry.Keys == connections.Keys && DrainGoing(left, result) && left(View(), rounds) && rounds > 0
      modifies this`history, sockets
      ensures if more then left(View(), rounds - 1) else View() == result
    {
      more := DrainRound();
    }

    /** Reports one status event to the handler. */
    method OnSteamNetConnectionStatusChanged(e: Event)
      requires Owned() && Manageable(registry, e)
      modifies this, sockets, objects
      ensures Owned() && View() == OnStatusChange(old(View()), e)
      ensures fresh(objects - old(objects))
    {
      ConnectionStatusChangeCallback(this, e);
    }

    /** One round of RunCallbacks. */
    method DispatchRound() returns (more: bool)
      requires Owned() && Reporting(View())
      modifies this, sockets, objects
      ensures Owned() && (View(), more) == DispatchedOne(old(View()))
      ensures fresh(objects - old(objects))
    {
      var callback := sockets.RunCallback();
      if callback == Quiet {
        return false;
      }
      ghost var w := View();
      OnSteamNetConnectionStatusChanged(callback.event);
      HandlerIsFaultless(w, callback.event);
      return true;
    }

    /** RunCallbacks. */
    method ProcessConnectionStateChanges()
      requires Owned() && Dispatchable(View())
      modifies this, sockets, objects
      ensures Owned() && View() == Dispatched(old(View())) && fresh(objects - old(objects))
    {
      ghost var left := DispatchIsPlanned(View());
      RunCallbacks(left, Dispatched(View()));
    }

    /** The loop of RunCallbacks; `left` holds of its states up to the last. */
    method RunCallbacks(ghost left: World -> bool, ghost result: World)
      requires Owned() && DispatchPlan(View(), left, result)
      modifies this, sockets, objects
      ensures Owned() && View() == result && fresh(objects - old(objects))
    {
      var more := true;
      while more
        invariant Owned() && if more then left(View()) else View() == result
        invariant fresh(objects - old(objects))
        decreases more, |sockets.net.script|
      {
        more := DispatchRound();
      }
    }

    /** The input loop. */
    method ProcessUserInput()
      modifies this`quitRequested, input
      ensures View() == ReadAll(old(View())) && ReadUpToQuit(old(View()), View())
    {
      ghost var left := ReadIsPlanned(View());
      ReadAllHears(View());
      ReadLines(left, ReadAll(View()));
    }

    /** Reads line by line; `left` holds of the states up to the last. */
    method ReadLines(ghost left: World -> bool, ghost result: World)
      requires ReadPlan(View(), left, result)
      modifies this`quitRequested, input
      ensures View() == result
    {
      var more := true;
      while more
        invariant if more then left(View()) else View() == result
        decreases more, Unread(input.View())
      {
        more := ReadRound();
      }
    }

    /** One round of the input loop. */
    method ReadRound() returns (more: bool)
      modifies this`quitRequested, input
      ensures (View(), more) == ReadOne(old(View()))
    {
      var available := input.InputAvailable();
      if !available {
        return false;
      }
      var line := input.ReadInput();
      if line == QUIT {
        quitRequested := true;
        return false;
      }
      return true;
    }

    /** Drains packets, reports status events and reads input, unless stopped or told to quit. */
    method UpdateConnection()
      requires Owned() && Inv(View())
      modifies this, sockets, input, objects
      ensures Owned() && View() == Updated(old(View()))
      ensures fresh(objects - old(objects))
    {
      if quitRequested || !running {
        return;
      }
      UpdateIs(View());
      PerformUpdate();
    }

    /** An update that is not skipped. */
    method PerformUpdate()
      requires Owned() && Drainable(View(), maxProcessedPackets) && Dispatchable(PendingPackets(View()))
      modifies this, sockets, input, objects
      ensures Owned() && View() == ReadAll(Dispatched(PendingPackets(old(View()))))
      ensures fresh(objects - old(objects))
    {
      ProcessPendingPackets();
      FinishUpdate();
    }

    /** An update after its drain. */
    method FinishUpdate()
      requires Owned() && Dispatchable(View())
      modifies this, sockets, input, objects
      ensures Owned() && View() == ReadAll(Dispatched(old(View())))
      ensures fresh(objects - old(objects))
    {
      ProcessConnectionStateChanges();
      ProcessUserInput();
    }

    // -------------------------------------------------------------- open and close

    method OpenConnection(addressOk: bool)
      modifies this`running, this`listeningSocket, this`pollGroup, this`history, sockets
      ensures View() == Opened(old(View()), addressOk)
    {
      if !addressOk {
        running := false;
        return;
      }
      listeningSocket := sockets.Create();
      running := true;
      if listeningSocket == INVALID {
        running := false;
      }
      pollGroup := sockets.CreateGroup();
      if pollGroup == INVALID {
        running := false;
      }
      if running {
        history := history.(heldSockets := history.heldSockets + {listeningSocket},
                            heldGroups := history.heldGroups + {pollGroup});
      }
    }

    /** Closes every entry, in whatever order they come. */
    method CloseEntries()
      requires Owned() && Keyed()
      modifies this`registry, sockets, objects
      ensures Owned() && View() == ClosedEntries(old(View()))
    {
      ghost var closed := CloseIsPlanned(View());
      CloseEachEntry(closed);
    }

    /** The loop over the registry; `closed` says what the state is when some entries are closed. */
    method CloseEachEntry(ghost closed: set<Handle> -> World)
      requires Owned() && ClosePlan(registry.Keys, closed) && View() == closed({})
      modifies this`registry, sockets, objects
      ensures Owned() && View() == closed(old(registry).Keys)
    {
      ghost var keys := registry.Keys;
      var remaining := connections.Keys;
      assert keys - remaining == {} && keys - {} == keys;
      while remaining != {}
        invariant remaining <= keys
        invariant Owned() && View() == closed(keys - remaining)
        decreases remaining
      {
        var h :| h in remaining;
        CloseNext(h, closed, keys, remaining);
        remaining := remaining - {h};
      }
    }

    method CloseNext(h: Handle, ghost closed: set<Handle> -> World,
                     ghost keys: set<Handle>, ghost remaining: set<Handle>)
      requires Owned() && ClosePlan(keys, closed)
      requires h in remaining && remaining <= keys && View() == closed(keys - remaining)
      modifies this`registry, sockets, objects
      ensures Owned() && View() == closed(keys - (remaining - {h}))
    {
      assert keys - (remaining - {h}) == keys - remaining + {h};
      CloseEntry(h);
    }

    method StopClients()
      requires Owned() && Keyed()
      modifies this`quitRequested, this`running, this`registry, sockets, objects
      ensures Owned() && View() == ClosedEntries(old(View()).(quit := true, running := false))
    {
      quitRequested := true;
      running := false;
      CloseEntries();
    }

    method ClearEntries()
      requires Owned() && forall h :: h in registry ==> registry[h].Destructible()
      modifies this`connections, this`registry
      ensures Owned() && View() == Cleared(old(View())) && connections == map[]
    {
      connections := map[];
      registry := map[];
    }

    method CloseHandles()
      modifies this`listeningSocket, this`pollGroup, this`history, sockets
      ensures View() == Disconnected(old(View()))
    {
      sockets.CloseSocket(listeningSocket);
      listeningSocket := INVALID;
      sockets.DestroyGroup(pollGroup);
      pollGroup := INVALID;
      history := history.(closeCalled := true);
    }

    /** Closes and forgets every client, then releases the server's handles. */
    method CloseConnection()
      requires Owned() && Keyed()
      modifies this, sockets, objects
      ensures Owned() && View() == ClosedServer(old(View())) && connections == map[]
    {
      StopClients();
      ClearEntries();
      CloseHandles();
    }

    /**
     The destructor: a server that is still running is closed first.  A stopped one must have no
     clients, whose objects would be destroyed unclosed.
     */
    method Destroy()
      requires Owned() && Inv(View()) && (running || connections == map[])
      modifies this, sockets, objects
      ensures Owned() && View() == Destroyed(old(View())) && connections == map[]
    {
      DestroyedKeeps(View());
      if running {
        InvIsKeyed(View());
        CloseConnection();
      }
    }
  }

  // ---------------------------------------------------------------- the example server's handler

  /** A client was lost: everyone else is told if it had been connected, and its entry is closed. */
  method HandleDropped(server: Server, h: Handle, was: Status)
    requires server.Owned() && server.Keyed() && h in server.connections
    modifies server, server.sockets, server.objects
    ensures server.Owned() && server.View() == OnDropped(old(server.View()), h, was)
    ensures server.objects == old(server.objects)
  {
    if was == Connected {
      server.SendPacketToAllConnectedClientsImpl(Left(h), Reliable, server.connections[h]);
    }
    server.CloseClientConnection(h);
  }

  /** Accepts the entry of `h`. */
  method AcceptEntry(server: Server, h: Handle) returns (ok: bool)
    requires server.Owned() && h in server.connections
    modifies server`registry, server.sockets, server.connections[h]
    ensures server.Owned() && (server.View(), ok) == Accepted(old(server.View()), h)
  {
    ok := server.connections[h].Accept();
    server.registry := server.registry[h := server.connections[h].View()];
  }

  /** Puts the entry of `h` into the server's poll group. */
  method GroupEntry(server: Server, h: Handle) returns (ok: bool)
    requires server.Owned() && h in server.connections
    modifies server`registry, server.sockets, server.connections[h]
    ensures server.Owned() && (server.View(), ok) == Grouped(old(server.View()), h)
  {
    ok := server.connections[h].SetPollGroup(server.pollGroup);
    server.registry := server.registry[h := server.connections[h].View()];
  }

  /** Welcomes the client `h` and tells everyone else that it joined. */
  method AnnounceEntry(server: Server, h: Handle)
    requires server.Owned() && server.Keyed() && h in server.connections
    modifies server`history, server.sockets
    ensures server.Owned() && server.View() == Announced(old(server.View()), h)
  {
    var c := server.connections[h];
    server.SendReliablePacket(Welcome(h), c);
    server.SendPacketToAllConnectedClientsImpl(Joined(h), Reliable, c);
    server.history := server.history.(rank := server.history.rank[h := |server.history.rank|]);
  }

  /** Puts the accepted client `h` into the poll group and announces it, or closes it where that fails. */
  method JoinEntry(server: Server, h: Handle)
    requires server.Owned() && server.Keyed() && h in server.connections
    modifies server`connections, server`registry, server`history, server.sockets, server.connections[h]
    ensures server.Owned() && server.View() == GroupedOrClosed(old(server.View()), h)
  {
    var ok := GroupEntry(server, h);
    if !ok {
      server.CloseClientConnection(h);
      return;
    }
    AnnounceEntry(server, h);
  }

  /** Accepts the entry of `h` and has it join, or closes it where that fails. */
  method AdmitEntry(server: Server, h: Handle)
    requires server.Owned() && server.Keyed() && h in server.connections
    modifies server`connections, server`registry, server`history, server.sockets, server.connections[h]
    ensures server.Owned() && server.View() == AcceptedOrClosed(old(server.View()), h)
  {
    var ok := AcceptEntry(server, h);
    if !ok {
      server.CloseClientConnection(h);
      return;
    }
    JoinEntry(server, h);
  }

  /** A client is connecting: it is registered, accepted, grouped and announced, or closed again. */
  method HandleConnecting(server: Server, h: Handle)
    requires server.Owned() && server.Keyed() && h != INVALID && h !in server.connections
    modifies server`connections, server`registry, server`objects, server`history, server.sockets
    ensures server.Owned() && server.View() == OnConnecting(old(server.View()), h)
    ensures fresh(server.objects - old(server.objects))
  {
    var c := server.CreateClientConnection(h);
    AdmitEntry(server, h);
  }

  /** The handler the example program plugs in. */
  method ConnectionStatusChangeCallback(server: Server, e: Event)
    requires server.Owned() && Manageable(server.registry, e)
    modifies server, server.sockets, server.objects
    ensures server.Owned() && server.View() == OnStatusChange(old(server.View()), e)
    ensures fresh(server.objects - old(server.objects))
  {
    match e.currentStatus
    case ClosedByPeer =>
      assert e.connection in server.connections;
      HandleDropped(server, e.connection, e.oldStatus);
    case ProblemDetectedLocally =>
      assert e.connection in server.connections;
      HandleDropped(server, e.connection, e.oldStatus);
    case Connecting =>
      assert e.connection !in server.connections;
      HandleConnecting(server, e.connection);
    case Connected =>
    case NoStatus =>
    case FindingRoute => assert false;
  }
}
