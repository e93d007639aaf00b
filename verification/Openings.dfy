/**
 What opening costs a server that is running, or that still has a handle of an opening that half
 failed, or of whose two creations only one succeeds.
 */
module Openings {
  import opened Transport
  import opened TransportProofs
  import opened ServerModel
  import opened Invariant
  import opened OperationProofs
  import opened Runs
  import opened Theorems

  // ---------------------------------------------------------------- opening a running server

  /** Opening a running server releases nothing, and its new socket is not the one it had. */
  lemma ReopenedSocket(w: World)
    requires Inv(w) && w.running
    ensures var v := Opened(w, true);
      && v.net.closedSockets[w.socket] == 0 && v.socket != w.socket && w.socket in v.history.heldSockets
  {
    BothCreatedIds(w);
    OpenedIs(w);
    assert w.socket in w.net.sockets;
  }

  lemma ReopenedIsNotReleased(w: World)
    requires Inv(w) && w.running
    ensures !HeldReleased(ClosedServer(Opened(w, true))) && !HeldReleased(Destroyed(Opened(w, true)))
  {
    var v := Opened(w, true);
    ReopenedSocket(w);
    OpenedKeeps(w, true);
    SocketKept(v, w.socket);
  }

  /** Shutting down releases no socket but the server's current one. */
  lemma SocketKept(w: World, s: SocketId)
    requires Inv(w) && w.net.closedSockets[s] == 0 && s != w.socket && s in w.history.heldSockets
    ensures !HeldReleased(ClosedServer(w)) && !HeldReleased(Destroyed(w))
  {
    ClosedServerIs(w);
    DestroyedKeeps(w);
    assert ClosedServer(w).net.closedSockets[s] == 0;
    assert s in ClosedServer(w).history.heldSockets;
  }

  /** A bad address only stops the server: closing it still releases everything, destroying it does not. */
  lemma BadAddressStops(w: World)
    requires Orderly(w) && w.running
    ensures HeldReleased(ClosedServer(Opened(w, false))) && !HeldReleased(Destroyed(Opened(w, false)))
  {
    var v := Opened(w, false);
    assert ClosedServer(v) == ClosedServer(w);
    ShutdownReleases(w);
    OpenedKeeps(w, false);
    DestroyedKeeps(v);
    assert w.socket in v.history.heldSockets && v.net.closedSockets[w.socket] == 0;
  }

  /**
   When opening keeps hold of what earlier successful openings got: after it, destroying the server
   releases all of that exactly when the server was not running, and closing it does exactly when it
   was not running or the address was bad.
   */
  lemma ReopeningForgetsHandles(w: World, addressOk: bool)
    requires Orderly(w)
    ensures HeldReleased(Destroyed(Opened(w, addressOk))) <==> !w.running
    ensures HeldReleased(ClosedServer(Opened(w, addressOk))) <==> !w.running || !addressOk
  {
    if !w.running {
      OpenedTidy(w, addressOk);
      ShutdownReleases(Opened(w, addressOk));
    } else if addressOk {
      ReopenedIsNotReleased(w);
    } else {
      BadAddressStops(w);
    }
  }

  /**
   Opening a running server anew strands its clients, whose objects are then destroyed unclosed,
   exactly when it has any and the address is bad or one of the two creations fails.
   */
  lemma FailedReopeningStrandsClients(w: World, addressOk: bool)
    requires Inv(w)
    ensures Destroyed(Opened(w, addressOk)).fault == ErasedWhileOpen <==>
      w.connections != map[] && (!addressOk || NewSocket(w) == INVALID || NewGroup(w) == INVALID)
  {
    OpenedKeeps(w, addressOk);
    DestroyedKeeps(Opened(w, addressOk));
    OpenedIs(w);
    if Opened(w, addressOk).running {
      ClosedServerKeeps(Opened(w, addressOk));
    }
  }

  /**
   Opening a server again with success cuts off the clients it had: they stay registered, but none of
   them is in the new poll group, and a drain hands over nothing of what they sent.
   */
  lemma ReopeningSilencesClients(w: World, rounds: nat)
    requires Inv(w) && NewSocket(w) != INVALID && NewGroup(w) != INVALID
    ensures var v := Opened(w, true);
      && v.running && v.connections == w.connections
      && (forall h :: h in v.connections ==> h in v.net.member && v.net.member[h] != v.group)
      && (Gathered(v) <==> w.connections == map[])
      && Drained(v, rounds).history.delivered == w.history.delivered
  {
    BothCreatedIds(w);
    OpenedIs(w);
    var v := Opened(w, true);
    if w.connections != map[] {
      var h :| h in w.connections;
      assert h in v.net.member;
    } else {
      assert v.net.member.Keys == {};
    }
    SilentDrain(v, rounds);
  }

  lemma SilentDrain(w: World, rounds: nat)
    requires forall h :: h in w.net.member ==> w.net.member[h] != w.group
    ensures Drained(w, rounds).history.delivered == w.history.delivered
  {
    if rounds == 0 {
    } else {
      YieldEvolves(w.net);
      var y := Yield(w.net);
      assert !DrainedOne(w).1 && DrainedOne(w).0.history == w.history;
    }
  }

  // ---------------------------------------------------------------- what stays live

  /** No socket and no poll group that was ever created is unreleased. */
  ghost predicate NothingLive(n: Net) {
    && (forall s :: s in n.sockets ==> !n.LiveSocket(s))
    && (forall g :: g in n.groups ==> !n.LiveGroup(g))
  }

  /** None is but the server's own, if they are. */
  ghost predicate OnlyCurrentLive(w: World) {
    && (forall s :: s in w.net.sockets && s != w.socket ==> !w.net.LiveSocket(s))
    && (forall g :: g in w.net.groups && g != w.group ==> !w.net.LiveGroup(g))
  }

  /** Closing the server releases its current handles and no others. */
  lemma ClosedServerReleases(w: World)
    requires Inv(w)
    ensures var n := ClosedServer(w).net;
      && n.sockets == w.net.sockets && n.groups == w.net.groups
      && n.closedSockets ==
           (if w.socket in w.net.sockets then w.net.closedSockets + multiset{w.socket} else w.net.closedSockets)
      && n.closedGroups ==
           (if w.group in w.net.groups then w.net.closedGroups + multiset{w.group} else w.net.closedGroups)
  {
    ClosedServerIs(w);
  }

  /** The ids of `made` that are live after releasing `current`, which was not released before. */
  lemma ReleasedOne(made: set<nat>, releases: multiset<nat>, current: nat)
    ensures var after := if current in made then releases + multiset{current} else releases;
      (forall s :: s in made ==> after[s] != 0) <==> (forall s :: s in made && s != current ==> releases[s] != 0)
  {
    var after := if current in made then releases + multiset{current} else releases;
    assert forall s :: s in made && s != current ==> after[s] == releases[s];
  }

  lemma ClosedServerLive(w: World)
    requires Inv(w)
    ensures NothingLive(ClosedServer(w).net) <==> OnlyCurrentLive(w)
  {
    ClosedServerReleases(w);
    ReleasedOne(w.net.sockets, w.net.closedSockets, w.socket);
    ReleasedOne(w.net.groups, w.net.closedGroups, w.group);
  }

  /** A new id leaves only itself live exactly when nothing was. */
  lemma CreatedOne(made: set<nat>, releases: multiset<nat>, id: nat)
    requires INVALID !in made && (id != INVALID ==> id !in made)
    ensures var all := if id == INVALID then made else made + {id};
      (forall s :: s in all && s != id ==> releases[s] != 0) <==> (forall s :: s in made ==> releases[s] != 0)
  {
  }

  /** Opening at a good address forgets the handles there were. */
  lemma OpenedLive(w: World)
    requires Inv(w)
    ensures OnlyCurrentLive(Opened(w, true)) <==> NothingLive(w.net)
  {
    BothCreatedIds(w);
    OpenedIs(w);
    CreatedOne(w.net.sockets, w.net.closedSockets, NewSocket(w));
    CreatedOne(w.net.groups, w.net.closedGroups, NewGroup(w));
  }

  lemma NothingMeansOnlyCurrent(w: World)
    requires NothingLive(w.net)
    ensures OnlyCurrentLive(w)
  {
  }

  /** What opening and then closing leaves live, however the opening went. */
  lemma ClosingAfterOpeningReleases(w: World, addressOk: bool)
    requires Inv(w)
    ensures NothingLive(ClosedServer(Opened(w, addressOk)).net) <==>
      if addressOk then NothingLive(w.net) else OnlyCurrentLive(w)
  {
    OpenedKeeps(w, addressOk);
    ClosedServerLive(Opened(w, addressOk));
    if addressOk {
      OpenedLive(w);
    }
  }

  /** An opening that gets nothing leaves live what was; one that gets something adds to it. */
  lemma HalfOpened(w: World)
    requires Inv(w)
    ensures NothingLive(Opened(w, true).net) <==>
      NothingLive(w.net) && NewSocket(w) == INVALID && NewGroup(w) == INVALID
  {
    BothCreatedIds(w);
    OpenedIs(w);
    var n := BothCreated(w).net;
    if NewSocket(w) != INVALID {
      assert w.net.closedSockets[NewSocket(w)] == 0;
      assert n.LiveSocket(NewSocket(w));
    }
    if NewGroup(w) != INVALID {
      assert w.net.closedGroups[NewGroup(w)] == 0;
      assert n.LiveGroup(NewGroup(w));
    }
    assert NewSocket(w) == INVALID ==> n.sockets == w.net.sockets;
    assert NewGroup(w) == INVALID ==> n.groups == w.net.groups;
  }

  /** What opening and then destroying leaves live: the destructor only acts when both creations succeeded. */
  lemma HalfOpeningLeaks(w: World, addressOk: bool)
    requires Inv(w)
    ensures NothingLive(Destroyed(Opened(w, addressOk)).net) <==>
      NothingLive(w.net) && (!addressOk || (NewSocket(w) == INVALID <==> NewGroup(w) == INVALID))
  {
    var v := Opened(w, addressOk);
    OpenedKeeps(w, addressOk);
    DestroyedKeeps(v);
    if addressOk {
      OpenedIs(w);
      HalfOpened(w);
      ClosingAfterOpeningReleases(w, true);
    }
  }

  // ---------------------------------------------------------------- whole runs

  /** Every connection, socket and poll group that was ever created was released exactly once. */
  ghost predicate AllReleased(w: World) {
    && (forall h :: w.net.closed[h] == if h in w.history.created then 1 else 0)
    && (forall s :: s in w.net.sockets ==> w.net.closedSockets[s] == 1)
    && (forall g :: g in w.net.groups ==> w.net.closedGroups[g] == 1)
  }

  lemma AllReleasedIs(w: World)
    requires Inv(w)
    ensures AllReleased(w) <==> NothingLive(w.net) && w.connections == map[]
  {
    ClosedAsCreated(w);
    if w.connections != map[] {
      var h :| h in w.connections;
      assert h in w.history.created;
      assert w.net.closed[h] == 0;
    }
  }

  /**
   After an opening, closing the server releases everything exactly when nothing was live before, or
   the address was bad and only the server's own handles were; destroying it does exactly when nothing
   was live and it has no clients to strand and not one handle without the other.
   */
  lemma OpeningIsSafeExactlyWhenNothingIsLive(w: World, addressOk: bool)
    requires Inv(w)
    ensures AllReleased(ClosedServer(Opened(w, addressOk))) <==>
      if addressOk then NothingLive(w.net) else OnlyCurrentLive(w)
    ensures AllReleased(Destroyed(Opened(w, addressOk))) <==>
      && NothingLive(w.net) && (!addressOk || (NewSocket(w) == INVALID <==> NewGroup(w) == INVALID))
      && (w.connections == map[] || (addressOk && NewSocket(w) != INVALID))
  {
    var v := Opened(w, addressOk);
    OpenedKeeps(w, addressOk);
    ClosedServerKeeps(v);
    AllReleasedIs(ClosedServer(v));
    ClosingAfterOpeningReleases(w, addressOk);
    DestroyedReleases(v);
    HalfOpeningLeaks(w, addressOk);
    OpenedIs(w);
  }

  lemma DestroyedReleases(w: World)
    requires Inv(w)
    ensures AllReleased(Destroyed(w)) <==> NothingLive(Destroyed(w).net) && (w.running || w.connections == map[])
  {
    DestroyedKeeps(w);
    AllReleasedIs(w);
    if w.running {
      ClosedServerKeeps(w);
      AllReleasedIs(ClosedServer(w));
    } else {
      assert AllReleased(Destroyed(w)) <==> AllReleased(w);
    }
  }

  /** Nothing was live at any opening with a good address. */
  ghost predicate ClearOpenings(w: World, actions: seq<Action>)
    decreases |actions|
  {
    actions == [] ||
    ((actions[0] == Open(true) ==> NothingLive(w.net)) && ClearOpenings(Performed(w, actions[0]), actions[1..]))
  }

  /** One call leaves only the server's own handles live exactly when they were, and nothing if it opens. */
  lemma ActionLive(w: World, a: Action)
    requires Inv(w)
    ensures OnlyCurrentLive(Performed(w, a)) <==> OnlyCurrentLive(w) && (a == Open(true) ==> NothingLive(w.net))
  {
    if a == Open(true) {
      OpenedLive(w);
      if NothingLive(w.net) {
        NothingMeansOnlyCurrent(w);
      }
    } else if a.Close? {
      CloseLive(w);
    } else if !a.Open? {
      ActionFrame(w, a);
      FramedLive(w, Performed(w, a));
    }
  }

  lemma CloseLive(w: World)
    requires Inv(w)
    ensures OnlyCurrentLive(ClosedServer(w)) <==> OnlyCurrentLive(w)
  {
    ClosedServerKeeps(w);
    ClosedServerIs(w);
    ClosedServerLive(w);
  }

  lemma FramedLive(w: World, v: World)
    requires Framed(w, v)
    ensures OnlyCurrentLive(v) <==> OnlyCurrentLive(w)
  {
  }

  lemma {:induction false} RunLive(w: World, actions: seq<Action>)
    requires Inv(w)
    ensures OnlyCurrentLive(Run(w, actions)) <==> OnlyCurrentLive(w) && ClearOpenings(w, actions)
    decreases |actions|
  {
    if actions == [] {
    } else {
      ActionKeeps(w, actions[0]);
      ActionLive(w, actions[0]);
      RunLive(Performed(w, actions[0]), actions[1..]);
    }
  }

  /**
   Closing the server after any run releases everything it ever created, once, exactly when nothing
   was live at any opening of the run with a good address.
   */
  lemma EverythingIsReleased(start: World, actions: seq<Action>, w: World)
    requires Reached(start, actions, w)
    ensures AllReleased(ClosedServer(w)) <==> ClearOpenings(start, actions)
  {
    ReachedInv(start, actions, w);
    InitialKeeps(start);
    RunLive(start, actions);
    assert OnlyCurrentLive(start);
    ClosingReleases(w);
  }

  lemma ClosingReleases(w: World)
    requires Inv(w)
    ensures AllReleased(ClosedServer(w)) <==> OnlyCurrentLive(w)
  {
    ClosedServerKeeps(w);
    AllReleasedIs(ClosedServer(w));
    ClosedServerLive(w);
  }
}
