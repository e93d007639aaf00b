/**
 Sends and the status handler keep the invariant, whichever branch the handler takes.
 */
module ServerProofs {
  import opened Transport
  import opened TransportProofs
  import opened ClientConnections
  import opened ServerModel
  import opened Invariant

  // ---------------------------------------------------------------- sends

  lemma ReplayAppend(log: seq<Send>, s: Send)
    ensures Replay(log + [s]) == Heard(Replay(log), s.packet)
  {
    assert (log + [s])[..|log|] == log;
  }

  lemma AudienceIsRegistry(w: World, except: Handle)
    requires forall h :: h in w.connections && h != except ==> w.connections[h].state == StateConnected
    ensures Audience(w, except) == w.connections.Keys - {except}
  {
  }

  lemma SendsAreIrrelevant(n: Net, m: Net, skip: set<Handle>)
    requires m == n.(sent := m.sent) && NetInv(n, skip)
    ensures NetInv(m, skip) && m.Engaged() == n.Engaged()
  {
    assert m.Engaged() == n.Engaged();
    assert forall h :: m.Pending(h) == n.Pending(h);
  }

  lemma ProperAppend(log: seq<Send>, s: Send, r: Handle, joined: set<Handle>, more: set<Handle>)
    requires ProperLog(log, r, joined) && joined <= more && !s.packet.Welcome?
    requires Notification(s.packet) ==> s.packet.who in more
    ensures ProperLog(log + [s], r, more)
  {
  }

  lemma LogsAppend(sent: map<Handle, seq<Send>>, joined: set<Handle>, to: set<Handle>, s: Send)
    requires Logged(sent, joined) && to <= joined && !s.packet.Welcome?
    requires Notification(s.packet) ==> s.packet.who in joined
    ensures Logged(Extended(sent, to, s), joined)
  {
    var more := Extended(sent, to, s);
    assert more.Keys == joined;
    forall r | r in more ensures ProperLog(more[r], r, joined) {
      assert ProperLog(sent[r], r, joined);
      if r in to {
        ProperAppend(sent[r], s, r, joined, joined);
      } else {
        assert sent[r] + [] == sent[r];
      }
    }
  }

  /** Telling everyone but `h` that the registered client `h` has left keeps everyone else's roster right. */
  lemma LeaveKeepsRoster(keys: set<Handle>, quiet: set<Handle>, rank: map<Handle, nat>,
                         sent: map<Handle, seq<Send>>, h: Handle)
    requires Roster(keys, quiet, rank, sent) && h in keys
    ensures Roster(keys - {h}, quiet, rank, Extended(sent, keys - {h}, Send(Left(h), Reliable)))
  {
    var more := Extended(sent, keys - {h}, Send(Left(h), Reliable));
    forall r | r in keys - {h}
      ensures Replay(more[r]) == JoinedAfter(keys - {h} + quiet, rank, r)
    {
      ReplayAppend(sent[r], Send(Left(h), Reliable));
      assert Replay(sent[r]) == JoinedAfter(keys + quiet, rank, r);
    }
  }

  lemma DataKeepsRoster(keys: set<Handle>, quiet: set<Handle>, rank: map<Handle, nat>, sent: map<Handle, seq<Send>>,
                        to: set<Handle>, s: Send)
    requires Roster(keys, quiet, rank, sent) && s.packet.Data?
    ensures Roster(keys, quiet, rank, Extended(sent, to, s))
  {
    var more := Extended(sent, to, s);
    forall r | r in keys
      ensures Replay(more[r]) == JoinedAfter(keys + quiet, rank, r)
    {
      assert Replay(sent[r]) == JoinedAfter(keys + quiet, rank, r);
      if r in to {
        ReplayAppend(sent[r], s);
      } else {
        assert sent[r] + [] == sent[r];
      }
    }
  }

  /** The log of every client after `h` was welcomed and everyone else told that it joined. */
  function Introduced(sent: map<Handle, seq<Send>>, keys: set<Handle>, h: Handle): map<Handle, seq<Send>> {
    var welcomed := (if h in sent then sent[h] else []) + [Send(Welcome(h), Reliable)];
    Extended(sent[h := welcomed], keys, Send(Joined(h), Reliable))
  }

  lemma JoinKeepsLogs(sent: map<Handle, seq<Send>>, joined: set<Handle>, keys: set<Handle>, h: Handle)
    requires Logged(sent, joined) && keys <= joined && h !in joined
    ensures Logged(Introduced(sent, keys, h), joined + {h})
    ensures Introduced(sent, keys, h)[h] == [Send(Welcome(h), Reliable)]
    ensures forall r :: r in keys ==> Introduced(sent, keys, h)[r] == sent[r] + [Send(Joined(h), Reliable)]
  {
    var more := Introduced(sent, keys, h);
    assert more.Keys == joined + {h};
    assert more[h] == [Send(Welcome(h), Reliable)];
    forall r | r in more ensures ProperLog(more[r], r, joined + {h}) {
      if r != h {
        assert ProperLog(sent[r], r, joined);
        if r in keys {
          ProperAppend(sent[r], Send(Joined(h), Reliable), r, joined, joined + {h});
        } else {
          assert more[r] == sent[r];
        }
      }
    }
  }

  lemma JoinKeepsRank(rank: map<Handle, nat>, h: Handle)
    requires Ranked(rank) && h !in rank
    ensures Ranked(rank[h := |rank|])
  {
    assert |rank[h := |rank|]| == |rank| + 1;
  }

  /** Welcoming `h` and telling everyone else that it joined makes it the youngest on every roster. */
  lemma JoinKeepsRoster(keys: set<Handle>, quiet: set<Handle>, rank: map<Handle, nat>, sent: map<Handle, seq<Send>>,
                        more: map<Handle, seq<Send>>, h: Handle)
    requires Roster(keys, quiet, rank, sent) && Ranked(rank) && h !in rank
    requires keys + {h} <= more.Keys && more[h] == [Send(Welcome(h), Reliable)]
    requires forall r :: r in keys ==> more[r] == sent[r] + [Send(Joined(h), Reliable)]
    ensures Roster(keys + {h}, quiet, rank[h := |rank|], more)
  {
    var later := rank[h := |rank|];
    var known := keys + {h} + quiet;
    ReplayAppend([], Send(Welcome(h), Reliable));
    assert [] + [Send(Welcome(h), Reliable)] == [Send(Welcome(h), Reliable)];
    forall r | r in keys + {h}
      ensures Replay(more[r]) == JoinedAfter(known, later, r)
    {
      if r != h {
        ReplayAppend(sent[r], Send(Joined(h), Reliable));
        assert Replay(sent[r]) == JoinedAfter(keys + quiet, rank, r);
        assert JoinedAfter(known, later, r) == JoinedAfter(keys + quiet, rank, r) + {h};
      } else {
        assert JoinedAfter(known, later, r) == {};
      }
    }
  }

  /** An application packet to all connected clients, except one if wanted. */
  lemma BroadcastKeeps(w: World, bytes: seq<byte>, kind: SendType, except: Handle)
    requires Inv(w)
    ensures Inv(SentToAll(w, Data(bytes), kind, except))
  {
    var to, s := Audience(w, except), Send(Submitted(Data(bytes)), kind);
    AudienceIsRegistry(w, except);
    DataKeeps(w, to, s);
  }

  lemma DataKeeps(w: World, to: set<Handle>, s: Send)
    requires Inv(w) && s.packet.Data? && to <= w.connections.Keys
    ensures Inv(w.(net := SendAll(w.net, to, s)))
  {
    DataKeepsRoster(w.connections.Keys, w.history.expelled, w.history.rank, w.net.sent, to, s);
    LogsAppend(w.net.sent, w.history.rank.Keys, to, s);
    RestSends(w, Extended(w.net.sent, to, s));
    SendsAreIrrelevant(w.net, SendAll(w.net, to, s), {});
  }

  lemma SendAllNone(n: Net, s: Send)
    ensures SendAll(n, {}, s) == n
  {
    assert forall r :: r in n.sent ==> n.sent[r] + [] == n.sent[r];
    assert Extended(n.sent, {}, s) == n.sent;
  }

  lemma SendAllMore(n: Net, to: set<Handle>, h: Handle, s: Send)
    requires h !in to
    ensures SendMessageToConnection(SendAll(n, to, s), h, s) == SendAll(n, to + {h}, s)
  {
    var one := SendMessageToConnection(SendAll(n, to, s), h, s).sent;
    var all := Extended(n.sent, to + {h}, s);
    assert one.Keys == all.Keys;
    forall r | r in one ensures one[r] == all[r] {
      if r == h && h in n.sent {
        assert n.sent[h] + [] == n.sent[h];
      }
    }
  }

  /** An application packet to one registered client. */
  lemma SendKeeps(w: World, h: Handle, bytes: seq<byte>, kind: SendType)
    requires Inv(w) && h in w.connections
    ensures Inv(SentOne(w, h, Data(bytes), kind))
  {
    DataKeeps(w, {h}, Send(Submitted(Data(bytes)), kind));
    SentOneIs(w, h, Data(bytes), kind);
  }

  lemma SentOneIs(w: World, h: Handle, p: Packet, kind: SendType)
    ensures SentOne(w, h, p, kind) == w.(net := SendAll(w.net, {h}, Send(Submitted(p), kind)))
  {
    var s := Send(Submitted(p), kind);
    SendAllNone(w.net, s);
    SendAllMore(w.net, {}, h, s);
    assert {} + {h} == {h};
  }

  // ---------------------------------------------------------------- the status handler

  /** What closing and erasing the entry of `h` leaves. */
  lemma ClosedClientIs(w: World, h: Handle)
    requires h in w.connections && w.connections[h].handle == h
    ensures ClosedClient(w, h) == w.(net := CloseAll(w.net, {h}), connections := w.connections - {h})
  {
    assert w.connections[h := w.connections[h].(state := StateClosed)] - {h} == w.connections - {h};
  }

  lemma ErasedBooks(w: World, v: World, h: Handle)
    requires Agree(w) && Ledger(w) && NetInv(w.net, {h}) && h in w.connections
    requires v == w.(net := CloseAll(w.net, {h}), connections := w.connections - {h})
    requires v.net.Engaged() == w.net.Engaged() - {h}
    ensures Agree(v) && Ledger(v)
  {
    assert v.connections.Keys == w.connections.Keys - {h};
    assert v.net.member.Keys == w.net.member.Keys - {h};
  }

  /** The entry of `h` is about to be closed: everything holds for the other clients already. */
  ghost predicate Leaving(w: World, h: Handle) {
    && h in w.connections && NetInv(w.net, {h})
    && Agree(w) && Ledger(w) && Console(w) && w.fault == NoFault
    && Streams(w.net, w.history.delivered)
    && Ranked(w.history.rank) && w.history.rank.Keys <= w.net.accepted
    && Logged(w.net.sent, w.history.rank.Keys)
    && Roster(w.connections.Keys - {h}, w.history.expelled, w.history.rank, w.net.sent)
  }

  lemma ClosedClientKeeps(w: World, h: Handle)
    requires Leaving(w, h)
    ensures Inv(ClosedClient(w, h)) && ClosedClient(w, h).connections == w.connections - {h}
  {
    ClosedClientIs(w, h);
    var v := w.(net := CloseAll(w.net, {h}), connections := w.connections - {h});
    CloseAllKeeps(w.net, {h});
    assert Agree(v) && Ledger(v) by {
      ErasedBooks(w, v, h);
    }
    StreamsClose(w.net, w.history.delivered, {h});
    assert v.connections.Keys == w.connections.Keys - {h};
  }

  /** Everyone else being told that `h` has left, its entry can be closed. */
  lemma TellingKeeps(w: World, h: Handle)
    requires Rest(w) && NetInv(w.net, {h}) && h in w.connections
    ensures Leaving(w.(net := SendAll(w.net, w.connections.Keys - {h}, Send(Left(h), Reliable))), h)
  {
    var keys, s := w.connections.Keys - {h}, Send(Left(h), Reliable);
    LeaveKeepsRoster(w.connections.Keys, w.history.expelled, w.history.rank, w.net.sent, h);
    LogsAppend(w.net.sent, w.history.rank.Keys, keys, s);
    var told := w.(net := SendAll(w.net, keys, s));
    SendsAreIrrelevant(w.net, told.net, {h});
    StreamsSend(w.net, told.net, w.history.delivered);
    assert Ledger(told) && Settled(told) by {
      BooksKept(w, told);
    }
  }

  lemma OnDroppedIs(w: World, h: Handle)
    requires Agree(w) && h in w.connections
    ensures var told := w.(net := SendAll(w.net, w.connections.Keys - {h}, Send(Left(h), Reliable)));
      OnDropped(w, h, Connected) == ClosedClient(told, h)
  {
    AudienceIsRegistry(w, h);
  }

  /** A dropped connection is registered; it leaves the registry, and everyone else is told. */
  lemma DroppedKeeps(w: World, h: Handle)
    requires Rest(w) && NetInv(w.net, {h}) && h in w.net.Engaged()
    ensures h in w.connections
    ensures Inv(OnDropped(w, h, Connected)) && OnDropped(w, h, Connected).connections == w.connections - {h}
  {
    OnDroppedIs(w, h);
    TellingKeeps(w, h);
    ClosedClientKeeps(w.(net := SendAll(w.net, w.connections.Keys - {h}, Send(Left(h), Reliable))), h);
  }

  /** A client the application closes on its own stays on the rosters of those that joined before it. */
  lemma ExpelledKeeps(w: World, h: Handle)
    requires Inv(w) && h in w.connections
    ensures Inv(Expelled(w, h)) && Expelled(w, h).connections == w.connections - {h}
  {
    var v := w.(history := w.history.(expelled := w.history.expelled + {h}));
    assert Leaving(v, h) by {
      EmptySkip(w.net, h);
      ExpelKeepsRoster(w.connections.Keys, w.history.expelled, w.history.rank, w.net.sent, h);
      assert Ledger(v) && Settled(v) by {
        BooksKept(w, v);
      }
    }
    ClosedClientKeeps(v, h);
  }

  lemma ExpelKeepsRoster(keys: set<Handle>, quiet: set<Handle>, rank: map<Handle, nat>,
                         sent: map<Handle, seq<Send>>, h: Handle)
    requires Roster(keys, quiet, rank, sent) && h in keys
    ensures Roster(keys - {h}, quiet + {h}, rank, sent)
  {
    assert keys - {h} + (quiet + {h}) == keys + quiet;
  }

  // ---------------------------------------------------------------- a connecting client

  /** A connecting handle has no entry, never had one, and was never announced. */
  lemma ConnectingIsNew(w: World, h: Handle)
    requires Rest(w) && Halfway(w.net, h)
    ensures h !in w.connections && h !in w.history.created && h !in w.history.rank && AgreeBut(w, h)
  {
    assert h !in w.net.Engaged();
  }

  /** Accepting: whether it succeeds or not, all is well but for the entry of `h`. */
  lemma AcceptedStage(w: World, h: Handle)
    requires Rest(w) && NetInv(w.net, {h}) && Halfway(w.net, h)
    ensures var (n, ok) := AcceptConnection(w.net, h);
      var v := w.(net := n);
      && Others(v) && AgreeBut(v, h) && NetInv(n, {h}) && h in n.status && n.status[h] != NoStatus
      && (ok ==> NetInv(n, {}) && h in n.Engaged())
  {
    AcceptKeeps(w.net, h);
    ConnectingIsNew(w, h);
    var (n, ok) := AcceptConnection(w.net, h);
    var y := w.(net := Yield(w.net));
    OthersEvolve(w, y.net);
    if ok {
      var v := w.(net := n);
      NewlyEngaged(y, n, h);
    }
  }

  lemma NewlyEngaged(w: World, n: Net, h: Handle)
    requires Others(w) && AgreeBut(w, h) && h !in w.net.accepted && w.net.accepted <= w.net.status.Keys
    requires Evolves(w.net.(accepted := n.accepted), n)
    requires n.accepted == w.net.accepted + {h} && n.Engaged() == w.net.Engaged() + {h}
    ensures Others(w.(net := n)) && AgreeBut(w.(net := n), h)
  {
    var v := w.(net := n);
    NewlyEngagedBooks(w, n, h);
    NewlyEngagedStreams(w.net, n, w.history.delivered);
    NotifiedKept(w, v);
  }

  lemma NotifiedKept(w: World, v: World)
    requires Notified(w) && v.connections.Keys == w.connections.Keys && v.history.rank == w.history.rank
    requires v.history.expelled == w.history.expelled
    requires v.net.sent == w.net.sent && w.net.accepted <= v.net.accepted
    ensures Notified(v)
  {
  }

  lemma NewlyEngagedBooks(w: World, n: Net, h: Handle)
    requires Ledger(w) && AgreeBut(w, h) && w.net.accepted <= w.net.status.Keys
    requires Evolves(w.net.(accepted := n.accepted), n)
    requires n.Engaged() == w.net.Engaged() + {h}
    ensures Ledger(w.(net := n)) && AgreeBut(w.(net := n), h)
  {
    BooksKept(w, w.(net := n));
  }

  lemma NewlyEngagedStreams(n: Net, m: Net, delivered: seq<Message>)
    requires Streams(n, delivered) && Evolves(n.(accepted := m.accepted), m)
    ensures Streams(m, delivered)
  {
    StreamsAccept(n, n.(accepted := m.accepted), delivered);
    StreamsEvolve(n.(accepted := m.accepted), m, delivered);
  }

  lemma StreamsAccept(n: Net, m: Net, delivered: seq<Message>)
    requires m == n.(accepted := m.accepted) && Streams(n, delivered)
    ensures Streams(m, delivered)
  {
    forall h ensures Stream(m, delivered, h) {
      assert Stream(n, delivered, h);
    }
  }

  /** A failed join changes nothing the server can see. */
  lemma UngroupedStage(w: World, h: Handle)
    requires Others(w) && AgreeBut(w, h) && NetInv(w.net, {}) && h in w.net.Engaged()
    ensures var y := w.(net := Yield(w.net));
      && Others(y) && AgreeBut(y, h) && NetInv(y.net, {}) && y.net.Engaged() == w.net.Engaged()
  {
    YieldKeeps(w.net, {});
    OthersEvolve(w, Yield(w.net));
  }

  /** A client that was refused leaves no trace but its closing, and nobody is told. */
  lemma RefusedKeeps(w: World, h: Handle)
    requires Others(w) && AgreeBut(w, h) && NetInv(w.net, {h})
    requires h in w.net.status && w.net.status[h] != NoStatus
    ensures Inv(w.(net := CloseAll(w.net, {h}), history := w.history.(created := w.history.created + {h})))
  {
    var v := w.(net := CloseAll(w.net, {h}), history := w.history.(created := w.history.created + {h}));
    CloseAllKeeps(w.net, {h});
    StreamsClose(w.net, w.history.delivered, {h});
    assert Agree(v) && Ledger(v) by {
      RefusedBooks(w, v, h);
    }
  }

  lemma RefusedBooks(w: World, v: World, h: Handle)
    requires Ledger(w) && AgreeBut(w, h) && h in w.net.status
    requires v == w.(net := CloseAll(w.net, {h}), history := w.history.(created := w.history.created + {h}))
    requires v.net.Engaged() == w.net.Engaged() - {h}
    ensures Agree(v) && Ledger(v)
  {
    assert v.net.member == w.net.member;
  }

  /** The world in which the accepted client `h` has joined the poll group and everyone was told. */
  function Admitted(w: World, h: Handle): World {
    w.(connections := w.connections[h := Conn(h, w.group, StateConnected)],
       net := w.net.(member := w.net.member[h := w.group],
                     sent := Introduced(w.net.sent, w.connections.Keys, h)),
       history := w.history.(created := w.history.created + {h},
                             rank := w.history.rank[h := |w.history.rank|]))
  }

  lemma AdmittedBooks(w: World, h: Handle)
    requires Ledger(w) && AgreeBut(w, h) && h in w.net.Engaged()
    ensures Agree(Admitted(w, h)) && Ledger(Admitted(w, h))
  {
    var v := Admitted(w, h);
    assert v.net.Engaged() == w.net.Engaged();
    assert v.connections.Keys == w.connections.Keys + {h};
  }

  lemma JoinKeepsBoth(keys: set<Handle>, quiet: set<Handle>, rank: map<Handle, nat>,
                      sent: map<Handle, seq<Send>>, h: Handle)
    requires Ranked(rank) && Logged(sent, rank.Keys) && Roster(keys, quiet, rank, sent) && h !in rank
    ensures Logged(Introduced(sent, keys, h), rank.Keys + {h})
    ensures Roster(keys + {h}, quiet, rank[h := |rank|], Introduced(sent, keys, h))
  {
    JoinKeepsLogs(sent, rank.Keys, keys, h);
    JoinKeepsRoster(keys, quiet, rank, sent, Introduced(sent, keys, h), h);
  }

  lemma AdmittedParts(w: World, h: Handle)
    ensures var v := Admitted(w, h);
      && v.connections.Keys == w.connections.Keys + {h}
      && v.history.rank == w.history.rank[h := |w.history.rank|]
      && v.history.rank.Keys == w.history.rank.Keys + {h}
      && v.net.sent == Introduced(w.net.sent, w.connections.Keys, h)
      && v.net.accepted == w.net.accepted && v.history.expelled == w.history.expelled
  {
  }

  lemma AdmittedNotified(w: World, h: Handle)
    requires Notified(w) && h in w.net.accepted && h !in w.history.rank && h !in w.connections
    ensures Notified(Admitted(w, h))
  {
    var keys, rank := w.connections.Keys, w.history.rank;
    JoinKeepsRank(rank, h);
    JoinKeepsBoth(keys, w.history.expelled, rank, w.net.sent, h);
    AdmittedParts(w, h);
    NotifiedFrom(Admitted(w, h), keys + {h}, rank[h := |rank|], rank.Keys + {h}, Introduced(w.net.sent, keys, h));
  }

  lemma NotifiedFrom(w: World, keys: set<Handle>, rank: map<Handle, nat>, joined: set<Handle>,
                     sent: map<Handle, seq<Send>>)
    requires Ranked(rank) && Logged(sent, joined) && Roster(keys, w.history.expelled, rank, sent)
    requires keys == w.connections.Keys && rank == w.history.rank && joined == rank.Keys && sent == w.net.sent
    requires joined <= w.net.accepted
    ensures Notified(w)
  {
  }

  lemma AdmittedNet(n: Net, m: Net, delivered: seq<Message>, h: Handle)
    requires NetInv(n, {}) && Streams(n, delivered) && h in n.Engaged()
    requires m == n.(member := m.member, sent := m.sent) && m.member.Keys <= n.Engaged()
    requires forall k :: k in m.member ==> m.member[k] in n.groups
    ensures NetInv(m, {}) && Streams(m, delivered)
  {
    var grouped := n.(member := m.member);
    MembersAreIrrelevant(n, grouped);
    SendsAreIrrelevant(grouped, m, {});
    forall k ensures Stream(m, delivered, k) {
      assert Stream(n, delivered, k);
    }
  }

  lemma AdmittedKeeps(w: World, h: Handle)
    requires Others(w) && AgreeBut(w, h) && NetInv(w.net, {}) && h in w.net.Engaged() && h !in w.history.rank
    requires w.group in w.net.groups
    ensures Inv(Admitted(w, h))
  {
    var v := Admitted(w, h);
    assert Agree(v) && Ledger(v) by {
      AdmittedBooks(w, h);
    }
    assert Notified(v) by {
      AdmittedNotified(w, h);
    }
    assert NetInv(v.net, {}) && Streams(v.net, v.history.delivered) && Console(v) && v.fault == NoFault by {
      AdmittedNetKeeps(w, h);
    }
    InvFromParts(v);
  }

  lemma AdmittedNetKeeps(w: World, h: Handle)
    requires Others(w) && AgreeBut(w, h) && NetInv(w.net, {}) && h in w.net.Engaged() && w.group in w.net.groups
    ensures var v := Admitted(w, h);
      NetInv(v.net, {}) && Streams(v.net, v.history.delivered) && Console(v) && v.fault == NoFault
  {
    AdmittedNet(w.net, Admitted(w, h).net, w.history.delivered, h);
  }

  lemma InvFromParts(w: World)
    requires NetInv(w.net, {}) && Agree(w) && Ledger(w) && Notified(w) && Streams(w.net, w.history.delivered)
    requires Console(w) && w.fault == NoFault
    ensures Inv(w)
  {
  }

  function Refused(w: World, h: Handle): World {
    w.(net := CloseAll(w.net, {h}), history := w.history.(created := w.history.created + {h}))
  }

  /** What follows a successful accept that left the library in state `v.net`. */
  function JoinOutcome(v: World, h: Handle): World {
    var (m, joined) := SetConnectionPollGroup(v.net, h, v.group);
    if joined then Admitted(v.(net := Yield(v.net)), h) else Refused(v.(net := m), h)
  }

  /** How the handler treats a connecting client, as a whole. */
  function Outcome(w: World, h: Handle): World {
    var (n, ok) := AcceptConnection(w.net, h);
    if ok then JoinOutcome(w.(net := n), h) else Refused(w.(net := n), h)
  }

  /** `w` with the entry of `h` in the given state, recorded as created. */
  function Entered(w: World, n: Net, h: Handle, state: ConnectionState): World {
    w.(net := n, connections := w.connections[h := Conn(h, INVALID, state)],
       history := w.history.(created := w.history.created + {h}))
  }

  lemma AcceptedIs(w: World, h: Handle)
    requires h !in w.connections
    ensures var (n, ok) := AcceptConnection(w.net, h);
      Accepted(Created(w, h), h) == (Entered(w, n, h, if ok then StateConnected else StateConnecting), ok)
  {
    var c := Created(w, h);
    var (v, ok) := Accepted(c, h);
    assert v.connections == w.connections[h := v.connections[h]];
  }

  /** A new entry that is closed again leaves the registry as it was. */
  lemma RefusedIs(w: World, n: Net, h: Handle, state: ConnectionState)
    requires h !in w.connections
    ensures ClosedClient(Entered(w, n, h, state), h) == Refused(w.(net := n), h)
  {
    ClosedClientIs(Entered(w, n, h, state), h);
    assert Entered(w, n, h, state).connections - {h} == w.connections;
  }

  lemma JoinOutcomeIs(w: World, n: Net, h: Handle)
    requires Settled(w) && h !in w.connections
    ensures GroupedOrClosed(Entered(w, n, h, StateConnected), h) == JoinOutcome(w.(net := n), h)
  {
    var e := Entered(w, n, h, StateConnected);
    var (grouped, joined) := Grouped(e, h);
    assert grouped.connections == w.connections[h := grouped.connections[h]];
    if joined {
      AnnouncedIs(grouped, w, h);
    } else {
      assert grouped == Entered(w, grouped.net, h, StateConnected);
      RefusedIs(w, grouped.net, h, StateConnected);
    }
  }

  lemma OnConnectingIs(w: World, h: Handle)
    requires Settled(w) && h !in w.connections
    ensures OnConnecting(w, h) == Outcome(w, h)
  {
    AcceptedIs(w, h);
    var (n, ok) := AcceptConnection(w.net, h);
    if ok {
      JoinOutcomeIs(w, n, h);
    } else {
      RefusedIs(w, n, h, StateConnecting);
    }
  }

  lemma AnnouncedIs(w: World, was: World, h: Handle)
    requires Settled(was) && h !in was.connections
    requires w.connections == was.connections[h := Conn(h, w.group, StateConnected)]
    ensures Announced(w, h).net == w.net.(sent := Introduced(w.net.sent, was.connections.Keys, h))
  {
    AudienceIsRegistry(w, h);
    assert Audience(w, h) == was.connections.Keys;
  }

  /** After a successful accept: the join succeeds and the client is admitted, or it is refused. */
  lemma AcceptedOutcomeKeeps(v: World, h: Handle)
    requires Others(v) && AgreeBut(v, h) && NetInv(v.net, {}) && h in v.net.Engaged() && h !in v.history.rank
    ensures Inv(JoinOutcome(v, h))
  {
    UngroupedStage(v, h);
    var y := v.(net := Yield(v.net));
    var (m, joined) := SetConnectionPollGroup(v.net, h, v.group);
    if joined {
      AdmittedKeeps(y, h);
    } else {
      EmptySkip(y.net, h);
      RefusedKeeps(y, h);
    }
  }

  lemma OutcomeKeeps(w: World, h: Handle)
    requires Rest(w) && NetInv(w.net, {h}) && Halfway(w.net, h)
    ensures Inv(Outcome(w, h))
  {
    assert h !in w.history.rank by {
      ConnectingIsNew(w, h);
    }
    AcceptedStage(w, h);
    var (n, ok) := AcceptConnection(w.net, h);
    if ok {
      AcceptedOutcomeKeeps(w.(net := n), h);
    } else {
      RefusedKeeps(w.(net := n), h);
    }
  }

  /** A connecting client ends up either registered and announced or closed and unmentioned. */
  lemma ConnectingKeeps(w: World, h: Handle)
    requires Rest(w) && NetInv(w.net, {h}) && Halfway(w.net, h)
    ensures h !in w.connections && Inv(OnConnecting(w, h))
    ensures OnConnecting(w, h).connections.Keys - {h} == w.connections.Keys
  {
    ConnectingIsNew(w, h);
    OnConnectingIs(w, h);
    OutcomeKeeps(w, h);
    OutcomeKeys(w, h);
  }

  lemma OutcomeKeys(w: World, h: Handle)
    requires h !in w.connections
    ensures Outcome(w, h).connections.Keys - {h} == w.connections.Keys
  {
  }

  lemma EmptySkip(n: Net, h: Handle)
    requires NetInv(n, {})
    ensures NetInv(n, {h})
  {
  }
}
