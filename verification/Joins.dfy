/**
 Which clients join: those whose accept and whose poll-group join succeed, when they connect, and no
 others at any later time.
 */
module Joins {
  import opened Transport
  import opened TransportProofs
  import opened ClientConnections
  import opened ServerModel
  import opened Invariant
  import opened ServerProofs
  import opened OperationProofs
  import opened Runs
  import opened Theorems

  /** The accept and the join of a connecting client both succeed. */
  predicate Joins(w: World, h: Handle) {
    var (n, ok) := AcceptConnection(w.net, h);
    ok && SetConnectionPollGroup(n, h, w.group).1
  }

  /** What becomes of a connecting client `h` that joins or does not: in the latter case nobody is told anything. */
  ghost predicate JoinedIf(w: World, v: World, h: Handle, joined: bool) {
    && v.history.created == w.history.created + {h}
    && (h in v.connections <==> joined)
    && v.history.rank == (if joined then w.history.rank[h := |w.history.rank|] else w.history.rank)
    && (!joined ==> v.net.sent == w.net.sent)
  }

  /** A connecting client is registered and ranked exactly when both calls succeed. */
  lemma ConnectingJoins(w: World, h: Handle)
    requires Settled(w) && h !in w.connections
    ensures JoinedIf(w, OnConnecting(w, h), h, Joins(w, h))
  {
    OnConnectingIs(w, h);
    var (n, ok) := AcceptConnection(w.net, h);
    assert n.sent == w.net.sent by {
      YieldEvolves(w.net);
    }
    if ok {
      AcceptedJoins(w.(net := n), h);
    } else {
      RefusedJoins(w, n, h);
    }
  }

  lemma AcceptedJoins(w: World, h: Handle)
    requires h !in w.connections
    ensures JoinedIf(w, JoinOutcome(w, h), h, SetConnectionPollGroup(w.net, h, w.group).1)
  {
    var (m, joined) := SetConnectionPollGroup(w.net, h, w.group);
    if joined {
      AdmittedJoins(w.(net := Yield(w.net)), h);
    } else {
      assert m.sent == w.net.sent by {
        YieldEvolves(w.net);
      }
      RefusedJoins(w, m, h);
    }
  }

  lemma AdmittedJoins(w: World, h: Handle)
    ensures JoinedIf(w, Admitted(w, h), h, true)
  {
  }

  lemma RefusedJoins(w: World, n: Net, h: Handle)
    requires h !in w.connections && n.sent == w.net.sent
    ensures JoinedIf(w, Refused(w.(net := n), h), h, false)
  {
  }

  // ---------------------------------------------------------------- what the others are told

  /** The log of `r` has one more entry, sent reliably. */
  ghost predicate Told(w: World, v: World, r: Handle, p: Packet) {
    v.net.SentTo(r) == w.net.SentTo(r) + [Send(p, Reliable)]
  }

  /** A client that joins is welcomed, every registered client is told, and nobody else is sent anything. */
  lemma JoinsAreAnnounced(w: World, h: Handle)
    requires Settled(w) && h !in w.connections && Joins(w, h)
    ensures var v := OnConnecting(w, h);
      && Told(w, v, h, Welcome(h))
      && (forall r :: r in w.connections ==> Told(w, v, r, Joined(h)))
      && (forall r :: r !in w.connections && r != h ==> v.net.SentTo(r) == w.net.SentTo(r))
  {
    OnConnectingIs(w, h);
    var n := AcceptConnection(w.net, h).0;
    assert Yield(n).sent == w.net.sent by {
      YieldEvolves(w.net);
      YieldEvolves(n);
    }
    IntroductionsAre(w.net.sent, w.connections.Keys, h);
  }

  lemma IntroductionsAre(sent: map<Handle, seq<Send>>, keys: set<Handle>, h: Handle)
    requires h !in keys
    ensures var more := Introduced(sent, keys, h);
      && h in more && more[h] == (if h in sent then sent[h] else []) + [Send(Welcome(h), Reliable)]
      && (forall r :: r in keys ==>
            (r in more && more[r] == (if r in sent then sent[r] else []) + [Send(Joined(h), Reliable)]))
      && (forall r :: r !in keys && r != h ==> (r in more <==> r in sent) && (r in sent ==> more[r] == sent[r]))
  {
  }

  /** A lost client is erased; the others are told exactly when it had been connected. */
  lemma DropsAreAnnounced(w: World, h: Handle, was: Status)
    requires Settled(w) && h in w.connections
    ensures var v := OnDropped(w, h, was);
      && v.connections == w.connections - {h} && v.net.closed[h] == w.net.closed[h] + 1
      && (forall r :: r in w.connections && r != h && was == Connected ==> Told(w, v, r, Left(h)))
      && (forall r :: r !in w.connections || r == h || was != Connected ==> v.net.SentTo(r) == w.net.SentTo(r))
  {
    AudienceIsRegistry(w, h);
    var told := if was == Connected then SentToAll(w, Left(h), Reliable, h) else w;
    ClosedClientIs(told, h);
  }

  /** Creating an entry for a handle leaves every existing entry as it is, that handle's included. */
  lemma EntriesAreCreatedOnce(w: World, h: Handle)
    ensures var v := Created(w, h);
      && v.connections.Keys == w.connections.Keys + {h} && v.net == w.net
      && (forall k :: k in w.connections ==> v.connections[k] == w.connections[k])
      && (h !in w.connections ==> v.connections[h].handle == h && v.connections[h].state == StateConnecting)
  {
  }

  // ---------------------------------------------------------------- who joins later

  /** From `w` to `v` only clients joined that had never connected before. */
  ghost predicate OnlyNewJoin(w: World, v: World) {
    && w.history.created <= v.history.created && w.history.rank.Keys <= v.history.rank.Keys
    && forall h :: h in v.history.rank ==> h in w.history.rank || h !in w.history.created
  }

  lemma DroppedJoins(w: World, h: Handle, was: Status)
    ensures OnDropped(w, h, was).history == w.history
  {
  }

  lemma ReportJoins(w: World, e: Event)
    requires Rest(w) && Reportable(w.net, e)
    ensures OnlyNewJoin(w, OnStatusChange(w, e))
  {
    HandledAs(w, e);
    if Lost(e.currentStatus) {
      DroppedJoins(w, e.connection, e.oldStatus);
    } else if e.currentStatus == Connecting {
      ConnectingIsNew(w, e.connection);
      ConnectingJoins(w, e.connection);
    }
  }

  lemma RoundJoins(w: World)
    requires Inv(w)
    ensures OnlyNewJoin(w, DispatchedOne(w).0)
  {
    NextCallbackKeeps(w.net);
    var (n, callback) := NextCallback(w.net);
    RestEvolves(w, n);
    if callback.Report? {
      ReportJoins(w.(net := n), callback.event);
    }
  }

  lemma JoinsOn(w: World, v: World, u: World)
    requires OnlyNewJoin(w, v) && OnlyNewJoin(v, u)
    ensures OnlyNewJoin(w, u)
  {
  }

  ghost predicate JoiningOn(w: World, v: World) {
    Dispatching(w, v) && OnlyNewJoin(w, v)
  }

  lemma JoiningGoesOn(w: World, v: World)
    requires JoiningOn(w, v)
    ensures JoiningOn(w, DispatchedOne(v).0)
  {
    DispatchGoesOn(w, v);
    RoundJoins(v);
    JoinsOn(w, v, DispatchedOne(v).0);
  }

  lemma DispatchedJoins(w: World)
    requires Inv(w) && w.running
    ensures OnlyNewJoin(w, Dispatched(w))
  {
    forall v | JoiningOn(w, v) ensures JoiningOn(w, DispatchedOne(v).0) {
      JoiningGoesOn(w, v);
    }
    DispatchLoop(w, (v: World) => JoiningOn(w, v));
  }

  lemma UpdatedJoins(w: World)
    requires Inv(w)
    ensures OnlyNewJoin(w, Updated(w))
  {
    if w.running && !w.quit {
      UpdateStages(w);
      DispatchedJoins(PendingPackets(w));
    }
  }

  lemma ExpelledJoins(w: World, h: Handle)
    ensures OnlyNewJoin(w, Expelled(w, h))
  {
  }

  lemma OtherCallsJoin(w: World, a: Action)
    requires !a.Update? && !a.Close? && !a.Expel? && !a.DispatchRound? && !a.DrainRound? && !a.ReadRound?
    ensures OnlyNewJoin(w, Performed(w, a))
  {
  }

  lemma RoundsJoin(w: World)
    requires Inv(w) && w.running
    ensures OnlyNewJoin(w, DrainedOne(w).0) && OnlyNewJoin(w, DispatchedOne(w).0) && OnlyNewJoin(w, ReadOne(w).0)
  {
    RoundKeeps(w);
    RoundJoins(w);
    ReadRoundIs(w);
  }

  lemma CallJoins(w: World, a: Action)
    requires Inv(w)
    ensures OnlyNewJoin(w, Performed(w, a))
  {
    if a.Update? {
      UpdatedJoins(w);
    } else if a.Close? {
      ClosedServerIs(w);
    } else if a.Expel? {
      ExpelledJoins(w, a.h);
    } else if a.DispatchRound? || a.DrainRound? || a.ReadRound? {
      if w.running {
        RoundsJoin(w);
      }
    } else {
      OtherCallsJoin(w, a);
    }
  }

  lemma {:induction false} RunJoins(w: World, actions: seq<Action>)
    requires Inv(w)
    ensures OnlyNewJoin(w, Run(w, actions))
    decreases |actions|
  {
    if actions == [] {
    } else {
      ActionKeeps(w, actions[0]);
      CallJoins(w, actions[0]);
      RunJoins(Performed(w, actions[0]), actions[1..]);
      JoinsOn(w, Performed(w, actions[0]), Run(w, actions));
    }
  }

  /** A client that connected and was refused never joins: nobody is ever sent a notice about it. */
  lemma RefusedClientsStayOut(start: World, actions: seq<Action>, w: World, later: seq<Action>, h: Handle)
    requires Reached(start, actions, w) && h in w.history.created && h !in w.history.rank
    ensures var v := Run(w, later);
      && h !in v.history.rank && h !in v.connections
      && forall r, i :: 0 <= i < |v.net.SentTo(r)| && Notification(v.net.SentTo(r)[i].packet) ==>
           v.net.SentTo(r)[i].packet.who != h
  {
    ReachedInv(start, actions, w);
    RunJoins(w, later);
    RunKeeps(w, later);
    NeverNamed(Run(w, later), h);
  }

  lemma NeverNamed(w: World, h: Handle)
    requires Inv(w) && h !in w.history.rank
    ensures h !in w.connections
    ensures forall r, i :: 0 <= i < |w.net.SentTo(r)| && Notification(w.net.SentTo(r)[i].packet) ==>
      w.net.SentTo(r)[i].packet.who != h
  {
    forall r, i | 0 <= i < |w.net.SentTo(r)| && Notification(w.net.SentTo(r)[i].packet)
      ensures w.net.SentTo(r)[i].packet.who != h
    {
      assert ProperLog(w.net.sent[r], r, w.history.rank.Keys);
    }
  }
}
