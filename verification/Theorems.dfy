/**
 What every run of the server guarantees, and what those runs do in which a running server is not
 opened again.
 */
module Theorems {
  import opened Transport
  import opened ClientConnections
  import opened ServerModel
  import opened Invariant
  import opened ServerProofs
  import opened OperationProofs
  import opened Runs

  /** The state a run of a fresh server reaches. */
  ghost predicate Reached(start: World, actions: seq<Action>, w: World) {
    Initial(start) && w == Run(start, actions)
  }

  /** The same for a run in which a running server is not opened again. */
  ghost predicate ReachedLawfully(start: World, actions: seq<Action>, w: World) {
    Reached(start, actions, w) && Lawful(start, actions)
  }

  lemma ReachedInv(start: World, actions: seq<Action>, w: World)
    requires Reached(start, actions, w)
    ensures Inv(w)
  {
    InitialKeeps(start);
    RunKeeps(start, actions);
  }

  lemma ReachedOrderly(start: World, actions: seq<Action>, w: World)
    requires ReachedLawfully(start, actions, w)
    ensures Orderly(w)
  {
    InitialKeeps(start);
    LawfulRunKeeps(start, actions);
  }

  // ---------------------------------------------------------------- assertions

  /**
   No run fails an assertion of the source, uses a null packet or reads an empty queue.  Destroying
   the server afterwards destroys an open connection object exactly when the server was stopped with
   clients; closing it first always prevents that.
   */
  lemma NoAssertionFails(start: World, actions: seq<Action>, w: World)
    requires Reached(start, actions, w)
    ensures w.fault == NoFault
    ensures Destroyed(w).fault == NoFault <==> w.running || w.connections == map[]
    ensures Destroyed(ClosedServer(w)).fault == NoFault
  {
    ReachedInv(start, actions, w);
    DestroyedKeeps(w);
    ClosedServerKeeps(w);
    DestroyedKeeps(ClosedServer(w));
  }

  /** A server that was never opened while running is never stopped with clients. */
  lemma StoppedServersAreEmpty(start: World, actions: seq<Action>, w: World)
    requires ReachedLawfully(start, actions, w)
    ensures !w.running ==> w.connections == map[]
    ensures Destroyed(w).fault == NoFault
  {
    ReachedOrderly(start, actions, w);
    DestroyedKeeps(w);
  }

  /**
   Packet ownership: every round of the drain hands over a packet of a connection registered at that
   moment or none, and a whole update only packets of connections registered when it began.
   */
  lemma PacketsAreOwned(start: World, actions: seq<Action>, w: World)
    requires Reached(start, actions, w)
    ensures w.running ==> OwnedBetween(w, DrainedOne(w).0)
    ensures OwnedBetween(w, Updated(w))
  {
    ReachedInv(start, actions, w);
    if w.running {
      RoundIsOwned(w);
      UpdateIsOwned(w);
    }
  }

  lemma RoundIsOwned(w: World)
    requires Inv(w) && w.running
    ensures OwnedBetween(w, DrainedOne(w).0)
  {
    RoundKeeps(w);
  }

  lemma UpdateIsOwned(w: World)
    requires Inv(w) && w.running
    ensures OwnedBetween(w, Updated(w))
  {
    if !w.quit {
      UpdateStages(w);
    }
  }

  /** The settings are what they are set to, and setting them changes nothing else. */
  lemma SettingsTakeEffect(w: World, on: bool, n: nat)
    ensures var v, u := Performed(w, UsePacketCallback(on)), Performed(w, LimitPackets(n));
      && v.packetCallback == on && v == w.(packetCallback := v.packetCallback)
      && u.maxPackets == n && u == w.(maxPackets := u.maxPackets)
  {
  }

  // ---------------------------------------------------------------- registry and transport

  /**
   The registry, the accepted connections not yet closed and the members of poll groups are the same;
   every entry is connected, holds its key and records its group; a running server's handles are usable.
   */
  lemma RegistryAgreesWithTransport(start: World, actions: seq<Action>, w: World)
    requires Reached(start, actions, w)
    ensures w.connections.Keys == w.net.Engaged() == w.net.member.Keys
    ensures forall h :: h in w.connections ==> w.connections[h] == Conn(h, w.net.member[h], StateConnected)
    ensures w.running ==> w.net.LiveSocket(w.socket) && w.net.LiveGroup(w.group)
  {
    ReachedInv(start, actions, w);
  }

  /** A server never opened while running has all of its clients in its current poll group. */
  lemma MembersAreInTheServersGroup(start: World, actions: seq<Action>, w: World)
    requires ReachedLawfully(start, actions, w)
    ensures Gathered(w)
    ensures w.connections.Keys == set h | h in w.net.member && w.net.member[h] == w.group
    ensures forall h :: h in w.connections ==> w.connections[h].group == w.group
  {
    ReachedOrderly(start, actions, w);
  }

  // ---------------------------------------------------------------- rosters

  /** Those that joined after `r` did and are registered in `w` or were closed by the application on its own. */
  ghost predicate JoinedLater(w: World, r: Handle, x: Handle)
    requires r in w.history.rank
  {
    (x in w.connections || x in w.history.expelled) && x in w.history.rank && w.history.rank[x] > w.history.rank[r]
  }

  /**
   Roster replay: what a registered client was sent, read from its welcome on, names exactly the
   registered clients that joined after it, besides any the application closed on its own; and nobody
   is ever told of a client that did not join.
   */
  lemma RostersReplay(start: World, actions: seq<Action>, w: World, r: Handle)
    requires Reached(start, actions, w) && r in w.connections
    ensures r in w.history.rank && w.net.SentTo(r) != [] && w.net.SentTo(r)[0] == Send(Welcome(r), Reliable)
    ensures forall x :: x in Replay(w.net.SentTo(r)) <==> JoinedLater(w, r, x)
  {
    assert Notified(w) by {
      ReachedInv(start, actions, w);
    }
    assert Replay(w.net.sent[r]) == JoinedAfter(w.connections.Keys + w.history.expelled, w.history.rank, r);
    assert ProperLog(w.net.sent[r], r, w.history.rank.Keys);
  }

  /** Where the application closes no client on its own, the rosters are exact. */
  lemma RostersAreExact(start: World, actions: seq<Action>, w: World, r: Handle)
    requires Reached(start, actions, w) && r in w.connections && forall a :: a in actions ==> !a.Expel?
    ensures r in w.history.rank
    ensures forall x :: x in Replay(w.net.SentTo(r)) <==>
      x in w.connections && x in w.history.rank && w.history.rank[x] > w.history.rank[r]
  {
    RostersReplay(start, actions, w, r);
    assert w.history.expelled == {} by {
      InitialKeeps(start);
      OnlyExpelledAreMissing(start, actions);
    }
  }

  /**
   Nobody, registered or not, is sent anything about a client that did not join, or without having
   joined; and only clients that were accepted joined.
   */
  lemma OnlyJoinedClientsAreNamed(start: World, actions: seq<Action>, w: World, r: Handle)
    requires Reached(start, actions, w)
    ensures w.history.rank.Keys <= w.net.accepted && w.connections.Keys <= w.history.rank.Keys
    ensures w.net.SentTo(r) != [] ==> r in w.history.rank
    ensures forall i :: 0 <= i < |w.net.SentTo(r)| && Notification(w.net.SentTo(r)[i].packet) ==>
              w.net.SentTo(r)[i].packet.who in w.history.rank
  {
    ReachedInv(start, actions, w);
    if r in w.net.sent {
      assert ProperLog(w.net.sent[r], r, w.history.rank.Keys);
    }
  }

  /** Clients are closed by the application only where it says so. */
  lemma {:induction false} OnlyExpelledAreMissing(w: World, actions: seq<Action>)
    requires Inv(w) && forall a :: a in actions ==> !a.Expel?
    ensures Run(w, actions).history.expelled == w.history.expelled
    decreases |actions|
  {
    if actions == [] {
    } else {
      ActionKeeps(w, actions[0]);
      ActionExpels(w, actions[0]);
      OnlyExpelledAreMissing(Performed(w, actions[0]), actions[1..]);
    }
  }

  lemma ActionExpels(w: World, a: Action)
    requires Inv(w) && !a.Expel?
    ensures Performed(w, a).history.expelled == w.history.expelled
  {
    if a.Update? {
      UpdateExpels(w);
    } else if a.Close? {
      ClosedServerIs(w);
    } else if a.DispatchRound? {
      DispatchRoundLeaves(w);
    } else {
      QuietActionExpels(w, a);
    }
  }

  lemma UpdateExpels(w: World)
    requires Inv(w)
    ensures Updated(w).history.expelled == w.history.expelled
  {
    if w.running && !w.quit {
      UpdateStages(w);
    }
  }

  lemma QuietActionExpels(w: World, a: Action)
    requires !a.Expel? && !a.Update? && !a.Close? && !a.DispatchRound?
    ensures Performed(w, a).history.expelled == w.history.expelled
  {
  }

  // ---------------------------------------------------------------- broadcasts

  function CopyFor(w: World, p: Packet, kind: SendType, except: Handle, r: Handle): seq<Send> {
    if r in w.connections && r != except then [Send(Submitted(p), kind)] else []
  }

  /**
   A broadcast submits one copy, as the library takes it, to every registered client but the
   excluded one, after everything submitted to it before, and nothing to anyone else.
   */
  lemma BroadcastReachesEachOnce(start: World, actions: seq<Action>, w: World,
                                 p: Packet, kind: SendType, except: Handle)
    requires Reached(start, actions, w)
    ensures forall r ::
      SentToAll(w, p, kind, except).net.SentTo(r) == w.net.SentTo(r) + CopyFor(w, p, kind, except, r)
  {
    RegistryAgreesWithTransport(start, actions, w);
    AudienceIsRegistry(w, except);
  }

  /**
   What the library takes of `bytes`: all of them when their number fits into 32 bits, and otherwise as
   many of the first as is left of that number.
   */
  ghost predicate Carries(before: seq<Send>, after: seq<Send>, bytes: seq<byte>, kind: SendType) {
    && (|bytes| < 0x1_0000_0000 ==> after == before + [Send(Data(bytes), kind)])
    && exists n: nat ::
      && n <= |bytes| && n < 0x1_0000_0000 && (|bytes| - n) % 0x1_0000_0000 == 0
      && after == before + [Send(Data(bytes[..n]), kind)]
  }

  lemma WholeOrRest(before: seq<Send>, bytes: seq<byte>, kind: SendType)
    ensures Carries(before, before + [Send(Submitted(Data(bytes)), kind)], bytes, kind)
  {
    var n := |bytes| % 0x1_0000_0000;
    assert bytes[..|bytes|] == bytes;
    assert Submitted(Data(bytes)) == Data(bytes[..n]);
  }

  /** In any state a broadcast of `bytes` submits them once to every connected entry but the excluded one. */
  lemma BroadcastSkipsUnconnected(w: World, bytes: seq<byte>, kind: SendType, except: Handle, r: Handle)
    ensures var v := Performed(w, Broadcast(bytes, kind, except));
      if r in w.connections && r != except && w.connections[r].state == StateConnected then
        Carries(w.net.SentTo(r), v.net.SentTo(r), bytes, kind)
      else v.net.SentTo(r) == w.net.SentTo(r)
  {
    WholeOrRest(w.net.SentTo(r), bytes, kind);
  }

  /** A broadcast of `bytes` submits them once to every registered client but the excluded one. */
  lemma BroadcastSubmitsTheBytes(start: World, actions: seq<Action>, w: World,
                                 bytes: seq<byte>, kind: SendType, except: Handle, r: Handle)
    requires Reached(start, actions, w)
    ensures var v := Performed(w, Broadcast(bytes, kind, except));
      if r in w.connections && r != except then Carries(w.net.SentTo(r), v.net.SentTo(r), bytes, kind)
      else v.net.SentTo(r) == w.net.SentTo(r)
  {
    RegistryAgreesWithTransport(start, actions, w);
    BroadcastSkipsUnconnected(w, bytes, kind, except, r);
  }

  /** A send of `bytes` to a registered client submits them once to it and nothing to anyone else. */
  lemma SendSubmitsTheBytes(w: World, h: Handle, bytes: seq<byte>, kind: SendType, r: Handle)
    requires h in w.connections
    ensures var v := Performed(w, SendTo(h, bytes, kind));
      if r == h then Carries(w.net.SentTo(r), v.net.SentTo(r), bytes, kind)
      else v.net.SentTo(r) == w.net.SentTo(r)
  {
    WholeOrRest(w.net.SentTo(r), bytes, kind);
  }

  // ---------------------------------------------------------------- streams

  /**
   Stream integrity: of an open connection, what was handed over followed by what still waits is
   what arrived; of a closed one, what was handed over is a prefix of it.
   */
  lemma StreamsAreIntact(start: World, actions: seq<Action>, w: World, h: Handle)
    requires Reached(start, actions, w)
    ensures h in w.connections ==> From(w.history.delivered, h) + From(w.net.inbox, h) == From(w.net.arrived, h)
    ensures From(w.history.delivered, h) <= From(w.net.arrived, h)
  {
    ReachedInv(start, actions, w);
    assert Stream(w.net, w.history.delivered, h);
  }

  // ---------------------------------------------------------------- release

  /** Every connection an entry was created for is closed exactly once, when it leaves the registry. */
  lemma ConnectionsAreClosedOnce(start: World, actions: seq<Action>, w: World)
    requires Reached(start, actions, w)
    ensures forall h :: w.net.closed[h] == if h in w.history.created && h !in w.connections then 1 else 0
    ensures forall h :: ClosedServer(w).net.closed[h] == if h in w.history.created then 1 else 0
  {
    ReachedInv(start, actions, w);
    ClosedServerKeeps(w);
    ClosedServerIs(w);
    ClosedAsCreated(w);
    ClosedAsCreated(ClosedServer(w));
  }

  lemma ClosedAsCreated(w: World)
    requires Inv(w)
    ensures forall h :: w.net.closed[h] == if h in w.history.created && h !in w.connections then 1 else 0
  {
  }

  /** No socket and no poll group is ever released twice. */
  lemma NothingIsReleasedTwice(start: World, actions: seq<Action>, w: World)
    requires Reached(start, actions, w)
    ensures forall s :: w.net.closedSockets[s] <= if s in w.net.sockets then 1 else 0
    ensures forall g :: w.net.closedGroups[g] <= if g in w.net.groups then 1 else 0
  {
    ReachedInv(start, actions, w);
  }

  /** Every connection that was created, and every handle that a successful opening got, was released once. */
  ghost predicate HeldReleased(w: World) {
    && (forall h :: w.net.closed[h] == if h in w.history.created then 1 else 0)
    && (forall s :: s in w.history.heldSockets ==> w.net.closedSockets[s] == 1)
    && (forall g :: g in w.history.heldGroups ==> w.net.closedGroups[g] == 1)
  }

  lemma StoppedReleases(w: World)
    requires Orderly(w) && !w.running
    ensures HeldReleased(w)
  {
    ClosedAsCreated(w);
  }

  lemma ShutdownReleases(w: World)
    requires Orderly(w)
    ensures HeldReleased(ClosedServer(w)) && HeldReleased(Destroyed(w)) && HeldReleased(Destroyed(ClosedServer(w)))
  {
    ClosedServerKeeps(w);
    DestroyedKeeps(w);
    DestroyedKeeps(ClosedServer(w));
    StoppedReleases(ClosedServer(w));
    if !w.running {
      StoppedReleases(w);
    }
  }

  /** Exactly-once release, however the server is shut down. */
  lemma ReleasedExactlyOnce(start: World, actions: seq<Action>, w: World)
    requires ReachedLawfully(start, actions, w)
    ensures HeldReleased(ClosedServer(w)) && HeldReleased(Destroyed(w)) && HeldReleased(Destroyed(ClosedServer(w)))
  {
    ReachedOrderly(start, actions, w);
    ShutdownReleases(w);
  }

  /** While the server runs nothing it uses has been released, and what it no longer uses has. */
  lemma RunningHolds(start: World, actions: seq<Action>, w: World)
    requires ReachedLawfully(start, actions, w)
    ensures forall s :: s in w.history.heldSockets ==>
              w.net.closedSockets[s] == if w.running && s == w.socket then 0 else 1
    ensures forall g :: g in w.history.heldGroups ==>
              w.net.closedGroups[g] == if w.running && g == w.group then 0 else 1
  {
    ReachedOrderly(start, actions, w);
  }
}
