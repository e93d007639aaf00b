/**
 The property of server and transport together that every operation keeps, and what the parts of
 it depend on.
 */
module Invariant {
  import opened Transport
  import opened TransportProofs
  import opened InputQueue
  import opened ClientConnections
  import opened ServerModel

  // ---------------------------------------------------------------- the parts

  /**
   The registry agrees with the transport: its keys are the handles accepted and not yet closed,
   which are the members of poll groups; every entry is connected and records its group; and a
   running server has a usable socket and poll group.
   */
  ghost predicate Agree(w: World) {
    w.connections.Keys == w.net.Engaged() && Settled(w)
  }

  /** The same while connection `h` is being handled and has no entry that counts. */
  ghost predicate AgreeBut(w: World, h: Handle) {
    h !in w.connections && w.connections.Keys == w.net.Engaged() - {h} && Settled(w)
  }

  ghost predicate Settled(w: World) {
    && w.connections.Keys == w.net.member.Keys
    && (forall h :: h in w.connections ==> w.connections[h] == Conn(h, w.net.member[h], StateConnected))
    && (w.running ==> w.net.LiveSocket(w.socket) && w.net.LiveGroup(w.group))
  }

  /** Every handle an entry was created for is registered or closed, and only those are closed. */
  ghost predicate Accounted(w: World) {
    && w.history.created <= w.net.status.Keys
    && (forall h :: h in w.net.status ==>
          (h in w.history.created <==> h in w.connections || w.net.status[h] == NoStatus))
  }

  /** Ids are made once and released at most once; `current` is not released, and `held` while running. */
  ghost predicate Ids(made: set<nat>, releases: multiset<nat>, held: set<nat>, current: nat, running: bool) {
    && INVALID !in made && held <= made
    && (running ==> current in held)
    && (current in made ==> releases[current] == 0)
    && (forall s :: s in made ==> releases[s] <= 1)
    && (forall s :: s !in made ==> releases[s] == 0)
  }

  ghost predicate Ledger(w: World) {
    && Accounted(w)
    && Ids(w.net.sockets, w.net.closedSockets, w.history.heldSockets, w.socket, w.running)
    && Ids(w.net.groups, w.net.closedGroups, w.history.heldGroups, w.group, w.running)
  }

  /** What one more packet makes of the clients its receiver believes to be there. */
  function Heard(known: set<Handle>, p: Packet): set<Handle> {
    match p
    case Welcome(_) => {}
    case Joined(x) => known + {x}
    case Left(x) => known - {x}
    case Data(_) => known
  }

  /** The clients a receiver of these packets believes to be there. */
  function Replay(log: seq<Send>): set<Handle> {
    if log == [] then {} else Heard(Replay(log[..|log| - 1]), log[|log| - 1].packet)
  }

  ghost predicate Notification(p: Packet) {
    p.Joined? || p.Left?
  }

  /** Those of `known` that joined after `r` did. */
  function JoinedAfter(known: set<Handle>, rank: map<Handle, nat>, r: Handle): set<Handle>
    requires known <= rank.Keys && r in rank
  {
    set x | x in known && rank[x] > rank[r]
  }

  /** Ranks were given out in order: the next one is larger than all. */
  ghost predicate Ranked(rank: map<Handle, nat>) {
    forall x :: x in rank ==> rank[x] < |rank|
  }

  /** A log starts with the receiver's welcome, has no other, and speaks only of clients that joined. */
  ghost predicate ProperLog(log: seq<Send>, r: Handle, joined: set<Handle>) {
    && log != [] && log[0] == Send(Welcome(r), Reliable)
    && (forall i :: 0 < i < |log| ==> !log[i].packet.Welcome?)
    && (forall i :: 0 <= i < |log| && Notification(log[i].packet) ==> log[i].packet.who in joined)
  }

  /** Only clients that joined are ever sent anything, and what they are sent is a proper log. */
  ghost predicate Logged(sent: map<Handle, seq<Send>>, joined: set<Handle>) {
    && sent.Keys == joined
    && forall r {:trigger ProperLog(sent[r], r, joined)} :: r in sent ==> ProperLog(sent[r], r, joined)
  }

  /** The log of every client in `keys` replays to those of `keys` and `quiet` that joined after it. */
  ghost predicate Roster(keys: set<Handle>, quiet: set<Handle>, rank: map<Handle, nat>, sent: map<Handle, seq<Send>>) {
    && keys <= rank.Keys && quiet <= rank.Keys && keys !! quiet && keys <= sent.Keys
    && forall r {:trigger Replay(sent[r])} :: r in keys ==> Replay(sent[r]) == JoinedAfter(keys + quiet, rank, r)
  }

  ghost predicate Notified(w: World) {
    && Ranked(w.history.rank) && w.history.rank.Keys <= w.net.accepted
    && Logged(w.net.sent, w.history.rank.Keys)
    && Roster(w.connections.Keys, w.history.expelled, w.history.rank, w.net.sent)
  }

  /** The messages of connection `h` among `ms`, in order. */
  function From(ms: seq<Message>, h: Handle): seq<Message> {
    if ms == [] then [] else (if ms[0].from == h then [ms[0]] else []) + From(ms[1..], h)
  }

  /** Nothing of `h` is lost, duplicated or reordered while it is open, and only a tail is lost when it is closed. */
  ghost predicate Stream(n: Net, delivered: seq<Message>, h: Handle) {
    if n.closed[h] == 0 then From(delivered, h) + From(n.inbox, h) == From(n.arrived, h)
    else From(delivered, h) <= From(n.arrived, h)
  }

  ghost predicate Streams(n: Net, delivered: seq<Message>) {
    forall h :: Stream(n, delivered, h)
  }

  /** Lines are read in order up to the first quit at the latest; reading it, or closing, is what requests quit. */
  ghost predicate Console(w: World) {
    && Fifo(w.input)
    && (forall i :: 0 <= i < |w.input.taken| - 1 ==> w.input.taken[i] != "/quit")
    && (w.quit <==> w.history.closeCalled || "/quit" in w.input.taken)
  }

  /** What is read of the world besides sends, streams, input and the environment's progress. */
  ghost predicate SameBooks(w: World, v: World) {
    && v.connections == w.connections && v.running == w.running && v.socket == w.socket && v.group == w.group
    && v.history.created == w.history.created
    && v.history.heldSockets == w.history.heldSockets && v.history.heldGroups == w.history.heldGroups
    && v.net.member == w.net.member
    && v.net.sockets == w.net.sockets && v.net.closedSockets == w.net.closedSockets
    && v.net.groups == w.net.groups && v.net.closedGroups == w.net.closedGroups
    && w.net.status.Keys <= v.net.status.Keys
    && (forall h :: h in w.net.status ==> (w.net.status[h] == NoStatus <==> v.net.status[h] == NoStatus))
    && (forall h :: h in v.net.status && h !in w.net.status ==> v.net.status[h] != NoStatus)
  }

  lemma BooksKept(w: World, v: World)
    requires Ledger(w) && Settled(w) && SameBooks(w, v) && w.connections.Keys <= w.net.status.Keys
    ensures Ledger(v) && Settled(v)
  {
  }

  /** Everything but the transport's own property. */
  ghost predicate Rest(w: World) {
    Agree(w) && Others(w)
  }

  ghost predicate Others(w: World) {
    Ledger(w) && Notified(w) && Streams(w.net, w.history.delivered) && Console(w) && w.fault == NoFault
  }

  /** What every run keeps. */
  ghost predicate Inv(w: World) {
    NetInv(w.net, {}) && Rest(w)
  }

  /** Of the ids that successful opens got, all are released but the ones of a running server. */
  ghost predicate OthersReleased(releases: multiset<nat>, held: set<nat>, current: nat, running: bool) {
    forall s :: s in held ==> releases[s] == if running && s == current then 0 else 1
  }

  /** All clients are in the server's current poll group. */
  ghost predicate Gathered(w: World) {
    forall h :: h in w.net.member ==> w.net.member[h] == w.group
  }

  /** A stopped server has no clients, and nothing was left behind by opening a running one. */
  ghost predicate Tidy(w: World) {
    && (!w.running ==> w.connections == map[])
    && Gathered(w)
    && OthersReleased(w.net.closedSockets, w.history.heldSockets, w.socket, w.running)
    && OthersReleased(w.net.closedGroups, w.history.heldGroups, w.group, w.running)
  }

  /** What every run keeps in which a running server is not opened again. */
  ghost predicate Orderly(w: World) {
    Inv(w) && Tidy(w)
  }

  /** A fresh server, whatever its uninitialised handles contain, on a fresh library. */
  ghost predicate Initial(w: World) {
    && w.connections == map[] && !w.running && !w.quit && w.fault == NoFault
    && w.history == NOTHING_YET
    && w.input.queue == w.input.added == w.input.taken == []
    && w.net == FreshNet(w.net.script, true)
  }

  lemma InitialKeeps(w: World)
    requires Initial(w)
    ensures Orderly(w)
  {
    assert w.net.Engaged() == {};
  }

  // ---------------------------------------------------------------- streams

  lemma {:induction false} FromConcat(a: seq<Message>, b: seq<Message>, h: Handle)
    ensures From(a + b, h) == From(a, h) + From(b, h)
  {
    if a == [] {
      assert a + b == b;
    } else {
      FromConcat(a[1..], b, h);
      assert (a + b)[1..] == a[1..] + b;
      var first := if a[0].from == h then [a[0]] else [];
      assert first + (From(a[1..], h) + From(b, h)) == first + From(a[1..], h) + From(b, h);
    }
  }

  lemma {:induction false} FromWithout(ms: seq<Message>, hs: set<Handle>, h: Handle)
    requires h !in hs
    ensures From(Without(ms, hs), h) == From(ms, h)
  {
    if ms == [] {
    } else {
      FromWithout(ms[1..], hs, h);
      var rest := Without(ms[1..], hs);
      assert ([ms[0]] + rest)[1..] == rest;
    }
  }

  lemma StreamsEvolve(n: Net, m: Net, delivered: seq<Message>)
    requires Streams(n, delivered) && Evolves(n, m)
    ensures Streams(m, delivered)
  {
    var news := m.inbox[|n.inbox|..];
    assert m.inbox == n.inbox + news && m.arrived == n.arrived + news;
    forall h ensures Stream(m, delivered, h) {
      assert Stream(n, delivered, h);
      FromConcat(n.inbox, news, h);
      FromConcat(n.arrived, news, h);
    }
  }

  lemma {:induction false} FromNone(ms: seq<Message>, h: Handle)
    requires forall j :: 0 <= j < |ms| ==> ms[j].from != h
    ensures From(ms, h) == []
  {
    if ms == [] {
    } else {
      FromNone(ms[1..], h);
    }
  }

  /** Taking out the oldest message of its sender moves that message from one stream to the other. */
  lemma FromTaken(ms: seq<Message>, i: nat, h: Handle)
    requires i < |ms| && forall j :: 0 <= j < i ==> ms[j].from != ms[i].from
    ensures From(ms, h) == From([ms[i]], h) + From(ms[..i] + ms[i + 1..], h)
  {
    var before, after := ms[..i], ms[i + 1..];
    assert ms == before + ([ms[i]] + after);
    FromConcat(before, [ms[i]] + after, h);
    FromConcat([ms[i]], after, h);
    FromConcat(before, after, h);
    if h == ms[i].from {
      FromNone(before, h);
    } else {
      FromNone([ms[i]], h);
    }
  }

  lemma StreamsDeliver(n: Net, i: nat, delivered: seq<Message>)
    requires Streams(n, delivered) && i < |n.inbox| && n.closed[n.inbox[i].from] == 0
    requires forall j :: 0 <= j < i ==> n.inbox[j].from != n.inbox[i].from
    ensures Streams(n.(inbox := n.inbox[..i] + n.inbox[i + 1..]), delivered + [n.inbox[i]])
  {
    var m := n.(inbox := n.inbox[..i] + n.inbox[i + 1..]);
    forall h ensures Stream(m, delivered + [n.inbox[i]], h) {
      assert Stream(n, delivered, h);
      FromConcat(delivered, [n.inbox[i]], h);
      FromTaken(n.inbox, i, h);
      if h != n.inbox[i].from {
        FromNone([n.inbox[i]], h);
      }
    }
  }

  lemma StreamsClose(n: Net, delivered: seq<Message>, hs: set<Handle>)
    requires Streams(n, delivered)
    ensures Streams(CloseAll(n, hs), delivered)
  {
    forall h ensures Stream(CloseAll(n, hs), delivered, h) {
      assert Stream(n, delivered, h);
      if h !in hs {
        FromWithout(n.inbox, hs, h);
      }
    }
  }

  lemma StreamsSend(n: Net, m: Net, delivered: seq<Message>)
    requires m == n.(sent := m.sent) && Streams(n, delivered)
    ensures Streams(m, delivered)
  {
    forall h ensures Stream(m, delivered, h) {
      assert Stream(n, delivered, h);
    }
  }

  // ---------------------------------------------------------------- environment steps

  lemma RestEvolves(w: World, m: Net)
    requires Rest(w) && Evolves(w.net, m) && w.net.accepted <= w.net.status.Keys
    ensures Rest(w.(net := m))
  {
    OthersEvolve(w, m);
  }

  lemma OthersEvolve(w: World, m: Net)
    requires Others(w) && Settled(w) && w.connections.Keys <= w.net.Engaged()
    requires Evolves(w.net, m) && w.net.accepted <= w.net.status.Keys
    ensures var v := w.(net := m); Others(v) && Settled(v) && v.net.Engaged() == w.net.Engaged()
  {
    var v := w.(net := m);
    EngagedKept(w.net, m);
    assert Ledger(v) && Settled(v) by {
      BooksKept(w, v);
    }
    StreamsEvolve(w.net, m, w.history.delivered);
  }

  /** Sends concern only the rosters. */
  lemma RestSends(w: World, sent: map<Handle, seq<Send>>)
    requires Rest(w) && w.net.accepted <= w.net.status.Keys
    requires Logged(sent, w.history.rank.Keys)
    requires Roster(w.connections.Keys, w.history.expelled, w.history.rank, sent)
    ensures Rest(w.(net := w.net.(sent := sent)))
  {
    var v := w.(net := w.net.(sent := sent));
    assert v.net.Engaged() == w.net.Engaged();
    assert Ledger(v) && Settled(v) by {
      BooksKept(w, v);
    }
    StreamsSend(w.net, v.net, w.history.delivered);
  }
}
