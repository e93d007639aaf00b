/**
 What the transport's contract keeps, whatever the environment does: the shape of every
 connection's unreported events, who may have messages waiting, and what no environment step
 can change.
 */
module TransportProofs {
  import opened Transport

  /** The events of connection `h` that can be waiting, given its status and whether it was accepted. */
  ghost predicate Shape(h: Handle, s: Status, accepted: bool, q: seq<Event>) {
    match s
    case NoStatus => forall i :: 0 <= i < |q| ==> q[i].currentStatus == NoStatus && q[i].oldStatus != FindingRoute
    case Connecting => !accepted && q == [Event(h, NoStatus, Connecting)]
    case FindingRoute => false
    case Connected => accepted && (q == [] || q == [Event(h, Connecting, Connected)])
    case _ =>
      if accepted then q == [Event(h, Connected, s)] || q == [Event(h, Connecting, Connected), Event(h, Connected, s)]
      else q == [Event(h, NoStatus, Connecting), Event(h, Connecting, s)]
  }

  /** Connection `h` is being handled: its connecting event is gone, and it is not yet accepted. */
  ghost predicate Halfway(n: Net, h: Handle) {
    && h in n.status && h !in n.accepted
    && (if n.status[h] == Connecting then n.Pending(h) == []
        else Lost(n.status[h]) && n.Pending(h) == [Event(h, Connecting, n.status[h])])
  }

  ghost predicate Shapes(n: Net, skip: set<Handle>) {
    forall h :: h in n.status && h !in skip ==> Shape(h, n.status[h], h in n.accepted, n.Pending(h))
  }

  /** Messages wait only for connections the application has accepted and not closed. */
  ghost predicate Addressed(n: Net) {
    forall i :: 0 <= i < |n.inbox| ==> n.inbox[i].from in n.Engaged()
  }

  /** One close call for every connection that is closed, none for the others. */
  ghost predicate ClosedOnce(n: Net) {
    && (forall h :: h in n.status ==> n.closed[h] == if n.status[h] == NoStatus then 1 else 0)
    && (forall h :: h !in n.status ==> n.closed[h] == 0)
  }

  /** Every message is numbered by its place among those that arrived. */
  ghost predicate Numbered(n: Net) {
    forall i :: 0 <= i < |n.arrived| ==> n.arrived[i].serial == i
  }

  ghost predicate Domains(n: Net) {
    && INVALID !in n.status
    && n.pending.Keys <= n.status.Keys
    && n.accepted <= n.status.Keys
    && n.member.Keys <= n.Engaged()
    && (forall h :: h in n.member ==> n.member[h] in n.groups)
    && (forall h :: h in n.status && n.status[h] == Connected ==> h in n.accepted)
    && n.purges
  }

  /** The kept property of the transport, except for the events of the connections in `skip`. */
  ghost predicate NetInv(n: Net, skip: set<Handle>) {
    Domains(n) && Shapes(n, skip) && Addressed(n) && ClosedOnce(n) && Numbered(n)
  }

  /** What an environment step cannot change, and how messages come in. */
  ghost predicate Evolves(n: Net, m: Net) {
    && m.accepted == n.accepted && m.member == n.member && m.sent == n.sent && m.closed == n.closed
    && m.sockets == n.sockets && m.closedSockets == n.closedSockets
    && m.groups == n.groups && m.closedGroups == n.closedGroups
    && m.straySockets == n.straySockets && m.strayGroups == n.strayGroups && m.purges == n.purges
    && n.status.Keys <= m.status.Keys
    && (forall h :: h in n.status ==> (n.status[h] == NoStatus <==> m.status[h] == NoStatus))
    && (forall h :: h in m.status && h !in n.status ==> m.status[h] != NoStatus)
    && n.inbox <= m.inbox && n.arrived <= m.arrived
    && m.inbox[|n.inbox|..] == m.arrived[|n.arrived|..]
  }

  lemma EvolvesTransitive(a: Net, b: Net, c: Net)
    requires Evolves(a, b) && Evolves(b, c)
    ensures Evolves(a, c)
  {
    assert c.inbox[|a.inbox|..] == b.inbox[|a.inbox|..] + c.inbox[|b.inbox|..];
    assert c.arrived[|a.arrived|..] == b.arrived[|a.arrived|..] + c.arrived[|b.arrived|..];
  }

  lemma EngagedKept(n: Net, m: Net)
    requires Evolves(n, m) && n.accepted <= n.status.Keys
    ensures m.Engaged() == n.Engaged()
  {
  }

  /** What a move adds to the messages waiting it adds to the messages that arrived. */
  lemma MoveBrings(n: Net, m: Move)
    ensures var r := Moved(n, m);
      && n.inbox <= r.inbox && n.arrived <= r.arrived && r.inbox[|n.inbox|..] == r.arrived[|n.arrived|..]
  {
    var r := Moved(n, m);
    if m.Arrive? && m.h in n.status && n.status[m.h] == Connected {
      var msg := Message(m.h, m.data, |n.arrived|);
      assert r.inbox[|n.inbox|..] == [msg] == r.arrived[|n.arrived|..];
    } else {
      assert r.inbox[|n.inbox|..] == [] == r.arrived[|n.arrived|..];
    }
  }

  /** A move announces connections and drops them; it neither closes nor reopens one. */
  lemma MoveKeepsClosed(n: Net, m: Move)
    ensures var r := Moved(n, m);
      && n.status.Keys <= r.status.Keys
      && (forall h :: h in n.status ==> (n.status[h] == NoStatus <==> r.status[h] == NoStatus))
      && (forall h :: h in r.status && h !in n.status ==> r.status[h] != NoStatus)
  {
  }

  lemma MoveEvolves(n: Net, m: Move)
    ensures Evolves(n, Moved(n, m))
  {
    MoveBrings(n, m);
    MoveKeepsClosed(n, m);
  }

  lemma MoveKeepsShape(n: Net, m: Move, h: Handle)
    requires h in Moved(n, m).status && n.pending.Keys <= n.status.Keys && n.accepted <= n.status.Keys
    requires h in n.status ==> Shape(h, n.status[h], h in n.accepted, n.Pending(h))
    ensures var r := Moved(n, m); Shape(h, r.status[h], h in r.accepted, r.Pending(h))
  {
  }

  lemma MoveKeepsShapes(n: Net, m: Move, skip: set<Handle>)
    requires Shapes(n, skip) && n.pending.Keys <= n.status.Keys && n.accepted <= n.status.Keys
    ensures Shapes(Moved(n, m), skip)
  {
    var r := Moved(n, m);
    forall h | h in r.status && h !in skip
      ensures Shape(h, r.status[h], h in r.accepted, r.Pending(h))
    {
      MoveKeepsShape(n, m, h);
    }
  }

  lemma MoveKeepsHalfway(n: Net, m: Move, h: Handle)
    requires Halfway(n, h)
    ensures Halfway(Moved(n, m), h)
  {
  }

  lemma MoveKeepsNetInv(n: Net, m: Move, skip: set<Handle>)
    requires NetInv(n, skip)
    ensures NetInv(Moved(n, m), skip)
  {
    var r := Moved(n, m);
    MoveEvolves(n, m);
    MoveKeepsShapes(n, m, skip);
    EngagedKept(n, r);
  }

  lemma {:induction false} MovesEvolve(n: Net, moves: seq<Move>)
    ensures Evolves(n, MovedAll(n, moves))
    decreases |moves|
  {
    if moves == [] {
      assert n.inbox[|n.inbox|..] == [] == n.arrived[|n.arrived|..];
    } else {
      MoveEvolves(n, moves[0]);
      MovesEvolve(Moved(n, moves[0]), moves[1..]);
      EvolvesTransitive(n, Moved(n, moves[0]), MovedAll(n, moves));
    }
  }

  lemma YieldEvolves(n: Net)
    ensures Evolves(n, Yield(n))
  {
    MovesEvolve(n, if n.script == [] then [] else n.script[0].moves);
  }

  lemma {:induction false} MovesKeep(n: Net, moves: seq<Move>, skip: set<Handle>)
    requires NetInv(n, skip)
    ensures NetInv(MovedAll(n, moves), skip)
    decreases |moves|
  {
    if moves == [] {
    } else {
      MoveKeepsNetInv(n, moves[0], skip);
      MovesKeep(Moved(n, moves[0]), moves[1..], skip);
    }
  }

  lemma {:induction false} MovesKeepHalfway(n: Net, moves: seq<Move>, h: Handle)
    requires Halfway(n, h)
    ensures Halfway(MovedAll(n, moves), h)
    decreases |moves|
  {
    if moves == [] {
    } else {
      MoveKeepsHalfway(n, moves[0], h);
      MovesKeepHalfway(Moved(n, moves[0]), moves[1..], h);
    }
  }

  /** The environment's turn keeps the transport's property and the rest of the application's view. */
  lemma YieldKeeps(n: Net, skip: set<Handle>)
    requires NetInv(n, skip)
    ensures NetInv(Yield(n), skip) && Evolves(n, Yield(n)) && Yield(n).Engaged() == n.Engaged()
  {
    if n.script != [] {
      MovesKeep(n, n.script[0].moves, skip);
      ScriptIsIrrelevant(MovedAll(n, n.script[0].moves), Yield(n), skip);
    }
    YieldEvolves(n);
    EngagedKept(n, Yield(n));
  }

  lemma ScriptIsIrrelevant(n: Net, m: Net, skip: set<Handle>)
    requires NetInv(n, skip) && m == n.(script := m.script)
    ensures NetInv(m, skip)
  {
    assert m.Engaged() == n.Engaged();
    assert forall h :: m.Pending(h) == n.Pending(h);
  }

  lemma YieldKeepsHalfway(n: Net, h: Handle)
    requires Halfway(n, h)
    ensures Halfway(Yield(n), h)
  {
    if n.script != [] {
      MovesKeepHalfway(n, n.script[0].moves, h);
    }
  }

  // ---------------------------------------------------------------- calls

  /** Accepting the connection being handled: either it is an ordinary accepted one, or nothing changed. */
  lemma AcceptKeeps(n: Net, h: Handle)
    requires NetInv(n, {h}) && Halfway(n, h)
    ensures var (r, ok) := AcceptConnection(n, h);
      var y := Yield(n);
      && Evolves(n, y) && y.Engaged() == n.Engaged()
      && (if ok then
            && NetInv(r, {}) && r.accepted == n.accepted + {h} && r.Engaged() == n.Engaged() + {h}
            && Evolves(y.(accepted := r.accepted), r) && h in r.status && r.status[h] == Connected
          else r == y && NetInv(r, {h}) && Halfway(r, h))
  {
    YieldKeeps(n, {h});
    YieldKeepsHalfway(n, h);
    var y := Yield(n);
    var (r, ok) := AcceptConnection(n, h);
    if ok {
      AcceptingKeeps(y, h);
      AcceptingEvolves(y, h);
    }
  }

  lemma AcceptingEvolves(n: Net, h: Handle)
    requires h in n.status && n.status[h] == Connecting
    ensures var r := n.(status := n.status[h := Connected], accepted := n.accepted + {h},
                        pending := n.pending[h := n.Pending(h) + [Event(h, Connecting, Connected)]]);
      Evolves(n.(accepted := r.accepted), r)
  {
    assert n.inbox[|n.inbox|..] == [] == n.arrived[|n.arrived|..];
  }

  lemma AcceptingKeeps(n: Net, h: Handle)
    requires NetInv(n, {h}) && Halfway(n, h) && n.status[h] == Connecting
    ensures var r := n.(status := n.status[h := Connected], accepted := n.accepted + {h},
                        pending := n.pending[h := n.Pending(h) + [Event(h, Connecting, Connected)]]);
      NetInv(r, {}) && r.Engaged() == n.Engaged() + {h}
  {
    var r := n.(status := n.status[h := Connected], accepted := n.accepted + {h},
                pending := n.pending[h := n.Pending(h) + [Event(h, Connecting, Connected)]]);
    assert r.Engaged() == n.Engaged() + {h};
    assert r.Pending(h) == [Event(h, Connecting, Connected)];
    forall k | k in r.status
      ensures Shape(k, r.status[k], k in r.accepted, r.Pending(k))
    {
      if k != h {
        assert Shape(k, n.status[k], k in n.accepted, n.Pending(k));
      }
    }
  }

  lemma MembersAreIrrelevant(n: Net, m: Net)
    requires NetInv(n, {}) && m == n.(member := m.member) && m.member.Keys <= n.Engaged()
    requires forall h :: h in m.member ==> m.member[h] in n.groups
    ensures NetInv(m, {})
  {
    assert m.Engaged() == n.Engaged();
    assert forall h :: m.Pending(h) == n.Pending(h);
  }

  lemma {:induction false} WithoutKeeps(ms: seq<Message>, hs: set<Handle>, ok: set<Handle>)
    requires forall i :: 0 <= i < |ms| ==> ms[i].from in ok
    ensures forall i :: 0 <= i < |Without(ms, hs)| ==> Without(ms, hs)[i].from in ok - hs
  {
    if ms == [] {
    } else {
      WithoutKeeps(ms[1..], hs, ok);
    }
  }

  /** Closing open connections: they are closed once, and their events and messages are gone. */
  lemma CloseAllKeeps(n: Net, hs: set<Handle>)
    requires NetInv(n, hs)
    requires forall h :: h in hs ==> h in n.status && n.status[h] != NoStatus
    ensures var r := CloseAll(n, hs); NetInv(r, {}) && r.Engaged() == n.Engaged() - hs
  {
    var r := CloseAll(n, hs);
    assert r.Engaged() == n.Engaged() - hs;
    WithoutKeeps(n.inbox, hs, n.Engaged());
    forall k | k in r.status
      ensures Shape(k, r.status[k], k in r.accepted, r.Pending(k))
    {
      if k !in hs {
        assert Shape(k, n.status[k], k in n.accepted, n.Pending(k));
      }
    }
  }

  lemma InboxIsIrrelevant(n: Net, m: Net)
    requires NetInv(n, {}) && m == n.(inbox := m.inbox)
    requires forall i :: 0 <= i < |m.inbox| ==> m.inbox[i] in n.inbox
    ensures NetInv(m, {}) && m.Engaged() == n.Engaged()
  {
    assert m.Engaged() == n.Engaged();
    assert forall h :: m.Pending(h) == n.Pending(h);
  }

  /**
   On a live group `g` a receive never fails; it hands over the oldest message of a member, which
   is an accepted connection not closed, or nothing when no member has one.
   */
  lemma ReceiveKeeps(n: Net, g: GroupId)
    requires NetInv(n, {}) && n.LiveGroup(g)
    ensures var (r, received) := ReceiveMessageOnPollGroup(n, g);
      var y := Yield(n);
      var i := FirstFor(y.inbox, y.member, g);
      && Evolves(n, y) && NetInv(y, {}) && y.Engaged() == n.Engaged() && NetInv(r, {}) && r.Engaged() == n.Engaged()
      && (if i == |y.inbox| then received == Empty && r == y
          else (received == Got(y.inbox[i]) && r == y.(inbox := y.inbox[..i] + y.inbox[i + 1..])
                && y.inbox[i].from in n.Engaged()))
  {
    YieldKeeps(n, {});
    var y := Yield(n);
    var (r, received) := ReceiveMessageOnPollGroup(n, g);
    var i := FirstFor(y.inbox, y.member, g);
    if i < |y.inbox| {
      TakingKeeps(y, i);
    }
  }

  lemma TakingKeeps(n: Net, i: nat)
    requires NetInv(n, {}) && i < |n.inbox|
    ensures var r := n.(inbox := n.inbox[..i] + n.inbox[i + 1..]);
      NetInv(r, {}) && r.Engaged() == n.Engaged() && n.inbox[i].from in n.Engaged()
  {
    InboxIsIrrelevant(n, n.(inbox := n.inbox[..i] + n.inbox[i + 1..]));
  }

  /** What a reported event says about its connection at the moment it is reported. */
  ghost predicate Reportable(n: Net, e: Event) {
    && e.oldStatus != FindingRoute && e.currentStatus != FindingRoute
    && (e.currentStatus == Connecting ==> Halfway(n, e.connection) && NetInv(n, {e.connection}))
    && (Lost(e.currentStatus) ==>
          && e.connection in n.Engaged() && e.oldStatus == Connected
          && NetInv(n, {e.connection}))
    && (e.currentStatus == Connected || e.currentStatus == NoStatus ==> NetInv(n, {}))
  }

  /** What the first unreported event of a connection can be, and what is left after it. */
  lemma ShapeHead(h: Handle, s: Status, accepted: bool, q: seq<Event>)
    requires Shape(h, s, accepted, q) && q != []
    ensures q[0].oldStatus != FindingRoute && q[0].currentStatus != FindingRoute
    ensures s != NoStatus ==> q[0].connection == h
    ensures q[0].currentStatus == Connecting ==> !accepted
    ensures q[0].currentStatus == Connecting ==>
      if s == Connecting then q[1..] == [] else Lost(s) && q[1..] == [Event(h, Connecting, s)]
    ensures Lost(q[0].currentStatus) ==> accepted && Lost(s) && q[0].oldStatus == Connected
    ensures q[0].currentStatus in {Connected, NoStatus} ==> Shape(h, s, accepted, q[1..])
  {
  }

  lemma PoppingKeeps(n: Net, r: Net, h: Handle)
    requires NetInv(n, {}) && h in n.pending && r == n.(pending := n.pending[h := r.Pending(h)])
    ensures NetInv(r, {h}) && r.Engaged() == n.Engaged()
    ensures Shape(h, r.status[h], h in r.accepted, r.Pending(h)) ==> NetInv(r, {})
  {
    assert r.Engaged() == n.Engaged();
    forall k | k in r.status && k != h
      ensures Shape(k, r.status[k], k in r.accepted, r.Pending(k))
    {
      assert Shape(k, n.status[k], k in n.accepted, n.Pending(k));
    }
  }

  /** The next event is about a connection in the right state: a dropped one was accepted, a connecting one was not. */
  lemma NextCallbackKeeps(n: Net)
    requires NetInv(n, {})
    ensures var (r, callback) := NextCallback(n);
      && Evolves(n, r) && r.Engaged() == n.Engaged()
      && (if callback.Quiet? then NetInv(r, {}) else Reportable(r, callback.event))
  {
    YieldKeeps(n, {});
    var y := Yield(n);
    var (r, callback) := NextCallback(n);
    if callback.Report? {
      var h := Picked(n);
      var s, q := y.status[h], y.Pending(h);
      assert Shape(h, s, h in y.accepted, q);
      ShapeHead(h, s, h in y.accepted, q);
      assert r == y.(pending := y.pending[h := r.Pending(h)]);
      PoppingKeeps(y, r, h);
    }
  }
}
