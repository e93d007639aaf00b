/**
 The operations of the server's interface keep the invariant: draining, dispatching, reading
 input, opening, closing and being destroyed.
 */
module OperationProofs {
  import opened Transport
  import opened TransportProofs
  import opened InputQueue
  import opened ServerModel
  import opened Invariant
  import opened ServerProofs

  // ---------------------------------------------------------------- dispatch

  /**
   Handler soundness: a drop is reported only for a registered connection, a connecting one only
   for an unregistered connection, and handling either keeps the invariant.
   */
  lemma DispatchedOneKeeps(w: World)
    requires Inv(w) && w.running
    ensures Inv(DispatchedOne(w).0)
    ensures var callback := NextCallback(w.net).1;
      callback.Report? ==>
        && (Lost(callback.event.currentStatus) ==> callback.event.connection in w.connections)
        && (callback.event.currentStatus == Connecting ==> callback.event.connection !in w.connections)
        && callback.event.oldStatus in MAPPED && callback.event.currentStatus in MAPPED
  {
    NextCallbackKeeps(w.net);
    var (n, callback) := NextCallback(w.net);
    RestEvolves(w, n);
    var v := w.(net := n);
    if callback.Report? {
      ReportFinds(v, callback.event);
      ReportKeeps(v, callback.event);
    }
  }

  lemma ReportFinds(w: World, e: Event)
    requires Rest(w) && Reportable(w.net, e) && w.running
    ensures Lost(e.currentStatus) ==> e.connection in w.connections
    ensures e.currentStatus == Connecting ==> e.connection !in w.connections
  {
  }

  /** The handler acts on drops and on connecting clients, and on nothing else. */
  lemma HandledAs(w: World, e: Event)
    requires e.oldStatus in MAPPED && e.currentStatus in MAPPED
    ensures OnStatusChange(w, e) ==
      if Lost(e.currentStatus) then OnDropped(w, e.connection, e.oldStatus)
      else if e.currentStatus == Connecting then OnConnecting(w, e.connection)
      else w
  {
  }

  lemma ReportKeeps(w: World, e: Event)
    requires Rest(w) && Reportable(w.net, e) && w.running
    ensures Inv(OnStatusChange(w, e))
  {
    HandledAs(w, e);
    if e.currentStatus == Connecting {
      ConnectingKeeps(w, e.connection);
    } else if Lost(e.currentStatus) {
      DroppedKeeps(w, e.connection);
    }
  }

  // ---------------------------------------------------------------- loops

  /** What every round from a loop state establishes, the loop establishes. */
  lemma {:induction false} RepeatKeeps(step: World -> (World, bool), rounds: nat, w: World,
                                       going: World -> bool, good: World -> bool)
    requires going(w)
    requires forall v :: going(v) ==> good(v)
    requires forall v {:trigger step(v)} :: going(v) ==> good(step(v).0) && (step(v).1 ==> going(step(v).0))
    ensures good(Repeat(step, rounds, w))
    decreases rounds
  {
    if rounds == 0 || !step(w).1 {
    } else {
      RepeatKeeps(step, rounds - 1, step(w).0, going, good);
    }
  }

  /** With enough rounds the loop ends because a round said so. */
  lemma {:induction false} RepeatEnds(step: World -> (World, bool), rounds: nat, w: World,
                                      going: World -> bool, left: World -> nat) returns (last: World)
    requires going(w) && left(w) < rounds
    requires forall v {:trigger step(v)} :: going(v) && step(v).1 ==> going(step(v).0) && left(step(v).0) < left(v)
    ensures going(last) && !step(last).1 && Repeat(step, rounds, w) == step(last).0
    decreases rounds
  {
    if step(w).1 {
      last := RepeatEnds(step, rounds - 1, step(w).0, going, left);
    } else {
      last := w;
    }
  }

  /** With enough rounds, how many were allowed does not matter. */
  lemma {:induction false} RepeatEnough(step: World -> (World, bool), a: nat, b: nat, w: World, left: World -> nat)
    requires left(w) < a && left(w) < b
    requires forall v {:trigger step(v)} :: step(v).1 ==> left(step(v).0) < left(v)
    ensures Repeat(step, a, w) == Repeat(step, b, w)
    decreases a
  {
    if step(w).1 {
      RepeatEnough(step, a - 1, b - 1, step(w).0, left);
    }
  }

  /** Dispatching goes on after a round that says so, and ends with one that does not. */
  lemma DispatchedStep(w: World)
    ensures Dispatched(w) == if DispatchedOne(w).1 then Dispatched(DispatchedOne(w).0) else DispatchedOne(w).0
  {
    var (v, more) := DispatchedOne(w);
    if more {
      RepeatEnough(DispatchedOne, |w.net.script|, |v.net.script| + 1, v, (u: World) => |u.net.script|);
    }
  }

  /** Reading goes on after a round that says so, and ends with one that does not. */
  lemma ReadStep(w: World)
    ensures ReadAll(w) == if ReadOne(w).1 then ReadAll(ReadOne(w).0) else ReadOne(w).0
  {
    var (v, more) := ReadOne(w);
    if more {
      RepeatEnough(ReadOne, Unread(w.input), Unread(v.input) + 1, v, (u: World) => Unread(u.input));
    }
  }

  /** What no rounds, a last round and one more round first establish, the loop establishes. */
  lemma {:induction false} RepeatCounts(step: World -> (World, bool), rounds: nat, w: World,
                                        good: World -> bool, done: (World, World, nat) -> bool)
    requires good(w) && forall v :: good(v) ==> good(step(v).0) && done(v, v, 0)
    requires forall v, k: nat :: good(v) && !step(v).1 ==> done(v, step(v).0, k)
    requires forall v, x, k: nat :: good(v) && step(v).1 && done(step(v).0, x, k) ==> done(v, x, k + 1)
    ensures done(w, Repeat(step, rounds, w), rounds)
    decreases rounds
  {
    if rounds == 0 || !step(w).1 {
    } else {
      RepeatCounts(step, rounds - 1, step(w).0, good, done);
    }
  }

  // ---------------------------------------------------------------- frames

  ghost predicate SameIds(n: Net, m: Net) {
    && m.sockets == n.sockets && m.closedSockets == n.closedSockets
    && m.groups == n.groups && m.closedGroups == n.closedGroups
    && m.straySockets == n.straySockets && m.strayGroups == n.strayGroups
  }

  /** What everything but opening and closing the server leaves alone. */
  ghost predicate Framed(w: World, v: World) {
    && v.running == w.running && v.socket == w.socket && v.group == w.group
    && v.history.heldSockets == w.history.heldSockets && v.history.heldGroups == w.history.heldGroups
    && SameIds(w.net, v.net)
    && (forall h :: h in v.net.member ==>
          v.net.member[h] == w.group || (h in w.net.member && v.net.member[h] == w.net.member[h]))
  }

  lemma FramedKeepsTidy(w: World, v: World)
    requires Tidy(w) && Framed(w, v) && (w.running || v.connections.Keys <= w.connections.Keys)
    ensures Tidy(v)
  {
  }

  lemma FramedKeepsGathered(w: World, v: World)
    requires Gathered(w) && Framed(w, v)
    ensures Gathered(v)
  {
  }

  /** From `w` to `v` only packets of connections registered in `w` were handed over, and none was taken back. */
  ghost predicate OwnedBetween(w: World, v: World) {
    && w.history.delivered <= v.history.delivered
    && forall i :: |w.history.delivered| <= i < |v.history.delivered| ==> v.history.delivered[i].from in w.connections
  }

  // ---------------------------------------------------------------- drain

  /**
   A round of the drain hands over the oldest message of a member of the server's poll group, whose
   sender is registered, if there is one.
   */
  lemma DrainedOneKeeps(w: World)
    requires Inv(w) && w.running
    ensures var y := Yield(w.net);
      var i := FirstFor(y.inbox, y.member, w.group);
      && Evolves(w.net, y) && NetInv(y, {}) && Inv(DrainedOne(w).0)
      && (if i == |y.inbox| then DrainedOne(w) == (w.(net := y), false)
          else (y.inbox[i].from in w.connections && DrainedOne(w) == (HandedOver(w.(net := y), i), true)))
  {
    DrainedOneIs(w);
    var y := Yield(w.net);
    RestEvolves(w, y);
    var i := FirstFor(y.inbox, y.member, w.group);
    if i < |y.inbox| {
      assert y.closed[y.inbox[i].from] == 0;
      assert forall j :: 0 <= j < i ==> y.inbox[j].from != y.inbox[i].from;
      HandedOverKeeps(w.(net := y), i);
    }
  }

  lemma DrainedOneIs(w: World)
    requires NetInv(w.net, {}) && Agree(w) && w.running
    ensures var y := Yield(w.net);
      var i := FirstFor(y.inbox, y.member, w.group);
      && Evolves(w.net, y) && NetInv(y, {}) && NetInv(DrainedOne(w).0.net, {})
      && (if i == |y.inbox| then DrainedOne(w) == (w.(net := y), false)
          else (y.inbox[i].from in w.connections && DrainedOne(w) == (HandedOver(w.(net := y), i), true)))
  {
    ReceiveKeeps(w.net, w.group);
    DrainedOneReceives(w);
  }

  lemma DrainedOneReceives(w: World)
    ensures var (n, received) := ReceiveMessageOnPollGroup(w.net, w.group);
      && (received == Empty ==> DrainedOne(w) == (w.(net := n), false))
      && (received.Got? && received.message.from in w.connections ==>
            DrainedOne(w) == (w.(net := n, history :=
              w.history.(delivered := w.history.delivered + [received.message])), true))
  {
  }

  /** The message at `i` has been handed over. */
  function HandedOver(w: World, i: nat): World
    requires i < |w.net.inbox|
  {
    w.(net := w.net.(inbox := w.net.inbox[..i] + w.net.inbox[i + 1..]),
       history := w.history.(delivered := w.history.delivered + [w.net.inbox[i]]))
  }

  lemma HandedOverKeeps(w: World, i: nat)
    requires Rest(w) && i < |w.net.inbox| && w.net.closed[w.net.inbox[i].from] == 0
    requires forall j :: 0 <= j < i ==> w.net.inbox[j].from != w.net.inbox[i].from
    ensures Rest(HandedOver(w, i))
  {
    var v := HandedOver(w, i);
    StreamsDeliver(w.net, i, w.history.delivered);
    assert v.net.Engaged() == w.net.Engaged();
    assert Ledger(v) && Settled(v) by {
      BooksKept(w, v);
    }
    NotifiedKept(w, v);
  }

  /** What a drain leaves alone, and whose packets it hands over. */
  ghost predicate OnlyDrained(w: World, v: World) {
    && v.connections == w.connections && v.running == w.running && v.quit == w.quit
    && v.packetCallback == w.packetCallback && v.maxPackets == w.maxPackets && v.input == w.input
    && v.history.closeCalled == w.history.closeCalled && v.history.expelled == w.history.expelled
    && v.history.created == w.history.created && v.history.rank == w.history.rank
    && Framed(w, v) && OwnedBetween(w, v)
  }

  lemma RoundKeeps(w: World)
    requires Inv(w) && w.running
    ensures Inv(DrainedOne(w).0) && OnlyDrained(w, DrainedOne(w).0)
  {
    DrainedOneKeeps(w);
    var y := Yield(w.net);
    var i := FirstFor(y.inbox, y.member, w.group);
    if i < |y.inbox| {
      HandedOverOnly(w, y, i);
    }
  }

  lemma HandedOverOnly(w: World, y: Net, i: nat)
    requires Evolves(w.net, y) && i < |y.inbox| && y.inbox[i].from in w.connections
    ensures OnlyDrained(w, HandedOver(w.(net := y), i))
  {
  }

  ghost predicate Draining(w: World, v: World) {
    Inv(v) && v.running && OnlyDrained(w, v)
  }

  lemma DrainGoesOn(w: World, v: World)
    requires Draining(w, v)
    ensures Draining(w, DrainedOne(v).0)
  {
    RoundKeeps(v);
    OnlyDrainedOn(w, v, DrainedOne(v).0);
  }

  lemma OnlyDrainedOn(w: World, v: World, u: World)
    requires OnlyDrained(w, v) && OnlyDrained(v, u)
    ensures OnlyDrained(w, u)
  {
  }

  /** What every round of the drain keeps, the drain keeps. */
  lemma DrainLoop(w: World, rounds: nat, good: World -> bool)
    requires good(w) && forall v {:trigger DrainedOne(v)} :: good(v) ==> good(DrainedOne(v).0)
    ensures good(Drained(w, rounds))
  {
    RepeatKeeps(DrainedOne, rounds, w, good, good);
  }

  /** What every dispatch round keeps, dispatching keeps. */
  lemma DispatchLoop(w: World, good: World -> bool)
    requires good(w) && forall v {:trigger DispatchedOne(v)} :: good(v) ==> good(DispatchedOne(v).0)
    ensures good(Dispatched(w))
  {
    RepeatKeeps(DispatchedOne, |w.net.script| + 1, w, good, good);
  }

  lemma DrainedKeeps(w: World, rounds: nat)
    requires Inv(w) && w.running
    ensures Draining(w, Drained(w, rounds))
  {
    forall v | Draining(w, v) ensures Draining(w, DrainedOne(v).0) {
      DrainGoesOn(w, v);
    }
    DrainLoop(w, rounds, (v: World) => Draining(w, v));
  }

  // ---------------------------------------------------------------- drains of all clients

  /** When all clients are in the server's current poll group, the oldest message of all is next. */
  lemma DrainedOldest(w: World)
    requires Inv(w) && Gathered(w) && w.running
    ensures var y := Yield(w.net);
      && Evolves(w.net, y) && Gathered(DrainedOne(w).0)
      && (if y.inbox == [] then DrainedOne(w) == (w.(net := y), false)
          else (y.inbox[0].from in w.connections && DrainedOne(w) == (HandedOver(w.(net := y), 0), true)))
  {
    RoundKeeps(w);
    FramedKeepsGathered(w, DrainedOne(w).0);
    DrainedOneKeeps(w);
    var y := Yield(w.net);
    if y.inbox != [] {
      EngagedKept(w.net, y);
      assert y.inbox[0].from in w.net.member;
      assert FirstFor(y.inbox, y.member, w.group) == 0;
    }
  }

  ghost predicate GatheredDraining(w: World, v: World) {
    Draining(w, v) && Gathered(v)
  }

  lemma GatheredDrainGoesOn(w: World, v: World)
    requires GatheredDraining(w, v)
    ensures GatheredDraining(w, DrainedOne(v).0)
  {
    DrainGoesOn(w, v);
    DrainedOldest(v);
  }

  /**
   A drain of at most `rounds` rounds hands over a prefix of what was waiting followed by what
   arrived meanwhile, all of it from registered connections, and stops early only when nothing waits.
   */
  lemma DrainedHandsOver(w: World, rounds: nat)
    requires Inv(w) && Gathered(w) && w.running
    ensures Drain(w, Drained(w, rounds), rounds)
  {
    forall v | GatheredDraining(w, v) ensures GatheredDraining(w, DrainedOne(v).0) {
      GatheredDrainGoesOn(w, v);
    }
    forall v ensures Drain(v, v, 0) {
      NoRound(v);
    }
    forall v, k: nat | GatheredDraining(w, v) && !DrainedOne(v).1 ensures Drain(v, DrainedOne(v).0, k) {
      RoundHandsOver(v, k);
    }
    forall v, x, k: nat | GatheredDraining(w, v) && DrainedOne(v).1 && Drain(DrainedOne(v).0, x, k)
      ensures Drain(v, x, k + 1)
    {
      RoundGoesOn(v, x, k);
    }
    RepeatCounts(DrainedOne, rounds, w, v => GatheredDraining(w, v), (v: World, x: World, k: nat) => Drain(v, x, k));
  }

  lemma RoundGoesOn(w: World, v: World, k: nat)
    requires Inv(w) && Gathered(w) && w.running && DrainedOne(w).1 && Drain(DrainedOne(w).0, v, k)
    ensures Drain(w, v, k + 1)
  {
    assert DrainedOne(w).0.connections == w.connections by {
      RoundKeeps(w);
    }
    RoundHandsOver(w, k);
    MoreRounds(w, DrainedOne(w).0, v, k);
  }

  ghost predicate Drain(w: World, v: World, rounds: nat) {
    && w.history.delivered <= v.history.delivered && w.net.arrived <= v.net.arrived
    && (var taken := v.history.delivered[|w.history.delivered|..];
        && taken + v.net.inbox == w.net.inbox + v.net.arrived[|w.net.arrived|..]
        && |taken| <= rounds && (|taken| < rounds ==> v.net.inbox == [])
        && forall i :: 0 <= i < |taken| ==> taken[i].from in w.connections)
    && v.net.closed == w.net.closed
  }

  lemma NoRound(w: World)
    ensures Drain(w, w, 0)
  {
    assert w.history.delivered[|w.history.delivered|..] == [];
    assert w.net.arrived[|w.net.arrived|..] == [];
    assert [] + w.net.inbox == w.net.inbox + [];
  }

  lemma RoundHandsOver(w: World, k: nat)
    requires Inv(w) && Gathered(w) && w.running
    ensures var (u, more) := DrainedOne(w);
      if more then Drain(w, u, 1) && |u.history.delivered| == |w.history.delivered| + 1 else Drain(w, u, k)
  {
    DrainedOldest(w);
    var y := Yield(w.net);
    if y.inbox == [] {
      EmptyRound(w, y, k);
    } else {
      FullRound(w, y);
    }
  }

  lemma EmptyRound(w: World, y: Net, k: nat)
    requires Evolves(w.net, y) && y.inbox == []
    ensures Drain(w, w.(net := y), k)
  {
    assert w.history.delivered[|w.history.delivered|..] == [];
    assert y.inbox == w.net.inbox + y.arrived[|w.net.arrived|..];
  }

  lemma FullRound(w: World, y: Net)
    requires Evolves(w.net, y) && y.inbox != [] && y.inbox[0].from in w.connections
    ensures Drain(w, HandedOver(w.(net := y), 0), 1)
  {
    assert (w.history.delivered + [y.inbox[0]])[|w.history.delivered|..] == [y.inbox[0]];
    assert y.inbox == w.net.inbox + y.arrived[|w.net.arrived|..];
    assert y.inbox == [y.inbox[0]] + (y.inbox[..0] + y.inbox[1..]);
  }

  lemma MoreRounds(w: World, u: World, v: World, rounds: nat)
    requires Drain(w, u, 1) && |u.history.delivered| == |w.history.delivered| + 1
    requires Drain(u, v, rounds) && u.connections == w.connections
    ensures Drain(w, v, rounds + 1)
  {
    var first := u.history.delivered[|w.history.delivered|..];
    var later := v.history.delivered[|u.history.delivered|..];
    assert v.history.delivered[|w.history.delivered|..] == first + later;
    var came, come := u.net.arrived[|w.net.arrived|..], v.net.arrived[|u.net.arrived|..];
    assert v.net.arrived[|w.net.arrived|..] == came + come;
    assert first + later + v.net.inbox == first + (u.net.inbox + come) == w.net.inbox + came + come;
  }

  // ---------------------------------------------------------------- input

  /** What reading input leaves alone, and what it does to the input. */
  ghost predicate OnlyRead(w: World, v: World) {
    && v == w.(input := v.input, quit := v.quit) && Lines(v.input) == Lines(w.input)
    && w.input.taken <= v.input.taken && |v.input.future| <= |w.input.future|
  }

  /** A batch the producer still had has been taken. */
  ghost predicate BatchTaken(i: Input, j: Input) {
    j.future == [] || |j.future| < |i.future|
  }

  /** A round of the input loop reads the next line, or finds none, and never reads an empty queue. */
  lemma ReadOneKeeps(w: World)
    requires Inv(w) && !w.quit
    ensures var (v, more) := ReadOne(w);
      && Inv(v) && OnlyRead(w, v) && (more ==> !v.quit) && (!more && !v.quit ==> v.input.queue == [])
      && BatchTaken(w.input, v.input)
  {
    CheckConserves(w.input);
    var (i, available) := Check(w.input);
    if available {
      ReadAfterCheck(i);
    }
    OnlyInput(w, ReadOne(w).0);
  }

  lemma OnlyInput(w: World, v: World)
    requires Inv(w) && v == w.(input := v.input, quit := v.quit) && Console(v)
    ensures Inv(v)
  {
    assert Settled(v) && Ledger(v) by {
      BooksKept(w, v);
    }
    NotifiedKept(w, v);
  }

  /** `v` is a state of the input loop that started from `w`. */
  ghost predicate Reading(w: World, v: World) {
    Inv(v) && OnlyRead(w, v) && !v.quit
  }

  ghost predicate ReadDone(w: World, v: World) {
    Inv(v) && OnlyRead(w, v) && (!v.quit ==> v.input.queue == []) && BatchTaken(w.input, v.input)
  }

  lemma ReadGoesOn(w: World, v: World)
    requires Reading(w, v)
    ensures var (u, more) := ReadOne(v);
      if more then Reading(w, u) else ReadDone(w, u)
  {
    ReadOneKeeps(v);
  }

  /** The input loop reads up to the first quit, or until nothing is waiting. */
  lemma ReadAllKeeps(w: World)
    requires Inv(w) && !w.quit
    ensures ReadDone(w, ReadAll(w))
  {
    var going := (v: World) => Reading(w, v);
    forall v | going(v) && ReadOne(v).1 ensures going(ReadOne(v).0) {
      ReadGoesOn(w, v);
    }
    var last := RepeatEnds(ReadOne, Unread(w.input) + 1, w, going, (v: World) => Unread(v.input));
    ReadGoesOn(w, last);
  }

  /** From `w` to `v` lines were read in order, up to "/quit" or, without it, as many as there were. */
  ghost predicate ReadUpToQuit(w: World, v: World) {
    && w.input.taken <= v.input.taken && Lines(v.input) == Lines(w.input)
    && (forall i :: |w.input.taken| <= i < |v.input.taken| - 1 ==> v.input.taken[i] != "/quit")
    && (v.quit <==> w.quit || "/quit" in v.input.taken[|w.input.taken|..])
    && (v.input.queue == [] || "/quit" in v.input.taken[|w.input.taken|..])
    && v == w.(input := v.input, quit := v.quit)
  }

  lemma ReadOneHears(w: World)
    ensures var (v, more) := ReadOne(w);
      && v == w.(input := v.input, quit := v.quit) && Lines(v.input) == Lines(w.input)
      && (v.input.taken == w.input.taken ==> !more && v.quit == w.quit && v.input.queue == [])
      && (v.input.taken != w.input.taken ==> exists line: string ::
            && v.input.taken == w.input.taken + [line] && v.quit == (w.quit || line == "/quit")
            && more == (line != "/quit"))
  {
    CheckConserves(w.input);
    var (i, available) := Check(w.input);
    if available {
      ReadAfterCheck(i);
      var line := i.queue[0];
      assert ReadOne(w).0.input.taken == w.input.taken + [line];
    }
  }

  /** The input loop, whatever the state it starts from. */
  lemma {:induction false} ReadAllHears(w: World)
    ensures ReadUpToQuit(w, ReadAll(w))
    decreases Unread(w.input)
  {
    ReadStep(w);
    ReadOneHears(w);
    var (v, more) := ReadOne(w);
    if !more {
      ReadLast(w, v);
    } else {
      ReadAllHears(v);
      ReadFurther(w, v, ReadAll(v));
    }
  }

  lemma ReadLast(w: World, v: World)
    requires v == w.(input := v.input, quit := v.quit) && Lines(v.input) == Lines(w.input)
    requires if v.input.taken == w.input.taken then v.quit == w.quit && v.input.queue == []
             else v.input.taken == w.input.taken + ["/quit"] && v.quit
    ensures ReadUpToQuit(w, v)
  {
  }

  lemma ReadFurther(w: World, v: World, u: World)
    requires v == w.(input := v.input, quit := v.quit) && Lines(v.input) == Lines(w.input) && v.quit == w.quit
    requires |v.input.taken| == |w.input.taken| + 1 && w.input.taken <= v.input.taken
    requires v.input.taken[|w.input.taken|] != "/quit" && ReadUpToQuit(v, u)
    ensures ReadUpToQuit(w, u)
  {
    var first := v.input.taken[|w.input.taken|];
    assert u.input.taken[|w.input.taken|..] == [first] + u.input.taken[|v.input.taken|..];
  }

  // ---------------------------------------------------------------- open

  /** Two nets that differ at most in the ids of listen sockets and poll groups. */
  ghost predicate OnlyIds(n: Net, m: Net) {
    m == n.(sockets := m.sockets, closedSockets := m.closedSockets, groups := m.groups, closedGroups := m.closedGroups,
            straySockets := m.straySockets, strayGroups := m.strayGroups)
  }

  lemma IdsAreIrrelevant(n: Net, m: Net, delivered: seq<Message>)
    requires OnlyIds(n, m) && n.groups <= m.groups && NetInv(n, {}) && Streams(n, delivered)
    ensures NetInv(m, {}) && Streams(m, delivered) && m.Engaged() == n.Engaged()
  {
    assert m.Engaged() == n.Engaged();
    assert forall h :: m.Pending(h) == n.Pending(h);
    forall h ensures Stream(m, delivered, h) {
      assert Stream(n, delivered, h);
    }
  }

  /** What opening and closing do besides closing clients. */
  ghost predicate OnlyHandles(w: World, v: World) {
    && OnlyIds(w.net, v.net) && w.net.groups <= v.net.groups
    && v == w.(net := v.net, socket := v.socket, group := v.group, running := v.running, quit := v.quit,
               history := w.history.(heldSockets := v.history.heldSockets, heldGroups := v.history.heldGroups,
                                     closeCalled := v.history.closeCalled))
  }

  ghost predicate HandlesInOrder(w: World) {
    && Ids(w.net.sockets, w.net.closedSockets, w.history.heldSockets, w.socket, w.running)
    && Ids(w.net.groups, w.net.closedGroups, w.history.heldGroups, w.group, w.running)
    && (w.running ==> w.net.LiveSocket(w.socket) && w.net.LiveGroup(w.group))
  }

  /** Changing the server's handles keeps the invariant when the handles stay in order. */
  lemma HandlesKeep(w: World, v: World)
    requires Inv(w) && OnlyHandles(w, v) && HandlesInOrder(v) && Console(v)
    ensures Inv(v)
  {
    IdsAreIrrelevant(w.net, v.net, w.history.delivered);
    NotifiedKept(w, v);
  }

  lemma YieldKeepsInv(w: World)
    requires Inv(w)
    ensures Inv(w.(net := Yield(w.net))) && Evolves(w.net, Yield(w.net))
  {
    YieldKeeps(w.net, {});
    RestEvolves(w, Yield(w.net));
  }

  /** Creating a listen socket adds a new id, if anything. */
  lemma SocketCreated(w: World)
    requires Inv(w)
    ensures var (n, s) := CreateListenSocket(w.net);
      && Inv(w.(net := n)) && n.member == w.net.member && n.closedSockets == w.net.closedSockets
      && n.groups == w.net.groups && n.closedGroups == w.net.closedGroups
      && n.straySockets == w.net.straySockets && n.strayGroups == w.net.strayGroups
      && n.sockets == (if s == INVALID then w.net.sockets else w.net.sockets + {s})
      && (s != INVALID ==> s !in w.net.sockets)
  {
    YieldKeepsInv(w);
    var y := w.(net := Yield(w.net));
    HandlesKeep(y, w.(net := CreateListenSocket(w.net).0));
  }

  lemma GroupCreated(w: World)
    requires Inv(w)
    ensures var (n, g) := CreatePollGroup(w.net);
      && Inv(w.(net := n)) && n.member == w.net.member && n.closedGroups == w.net.closedGroups
      && n.sockets == w.net.sockets && n.closedSockets == w.net.closedSockets
      && n.straySockets == w.net.straySockets && n.strayGroups == w.net.strayGroups
      && n.groups == (if g == INVALID then w.net.groups else w.net.groups + {g})
      && (g != INVALID ==> g !in w.net.groups)
  {
    YieldKeepsInv(w);
    var y := w.(net := Yield(w.net));
    HandlesKeep(y, w.(net := CreatePollGroup(w.net).0));
  }

  /** What the two creations of an opening return. */
  function NewSocket(w: World): SocketId {
    CreateListenSocket(w.net).1
  }

  function NewGroup(w: World): GroupId {
    CreatePollGroup(CreateListenSocket(w.net).0).1
  }

  /** The state in which both creations have been called and nothing has been assigned. */
  function BothCreated(w: World): World {
    w.(net := CreatePollGroup(CreateListenSocket(w.net).0).0)
  }

  /** Opening adds the ids it creates, each new, and releases none. */
  lemma BothCreatedIds(w: World)
    requires Inv(w)
    ensures var v, s, g := BothCreated(w), NewSocket(w), NewGroup(w);
      && Inv(v) && v.net.member == w.net.member
      && v.net.closedSockets == w.net.closedSockets && v.net.closedGroups == w.net.closedGroups
      && v.net.straySockets == w.net.straySockets && v.net.strayGroups == w.net.strayGroups
      && v.net.sockets == (if s == INVALID then w.net.sockets else w.net.sockets + {s})
      && v.net.groups == (if g == INVALID then w.net.groups else w.net.groups + {g})
      && (s != INVALID ==> s !in w.net.sockets) && (g != INVALID ==> g !in w.net.groups)
  {
    SocketCreated(w);
    GroupCreated(w.(net := CreateListenSocket(w.net).0));
  }

  /** What opening assigns. */
  lemma OpenedIs(w: World)
    ensures var s, g := NewSocket(w), NewGroup(w);
      var up := s != INVALID && g != INVALID;
      Opened(w, true) == BothCreated(w).(socket := s, group := g, running := up,
        history := w.history.(heldSockets := if up then w.history.heldSockets + {s} else w.history.heldSockets,
                              heldGroups := if up then w.history.heldGroups + {g} else w.history.heldGroups))
  {
  }

  lemma NewIds(made: set<nat>, after: set<nat>, releases: multiset<nat>, held: set<nat>, current: nat, running: bool,
               id: nat, up: bool)
    requires Ids(made, releases, held, current, running)
    requires after == if id == INVALID then made else made + {id}
    requires id != INVALID ==> id !in made
    requires up ==> id != INVALID
    ensures Ids(after, releases, if up then held + {id} else held, id, up)
    ensures up ==> id in after && releases[id] == 0
  {
  }

  /** Opening keeps the invariant, running or not, and whichever of its calls fail. */
  lemma OpenedKeeps(w: World, addressOk: bool)
    requires Inv(w)
    ensures Inv(Opened(w, addressOk))
  {
    if addressOk {
      BothCreatedIds(w);
      OpenedIs(w);
      var u, s, g := BothCreated(w), NewSocket(w), NewGroup(w);
      var up := s != INVALID && g != INVALID;
      NewIds(w.net.sockets, u.net.sockets, w.net.closedSockets, w.history.heldSockets, w.socket, w.running, s, up);
      NewIds(w.net.groups, u.net.groups, w.net.closedGroups, w.history.heldGroups, w.group, w.running, g, up);
      HandlesKeep(u, Opened(w, true));
    } else {
      HandlesKeep(w, w.(running := false));
    }
  }

  /** Opening a stopped server leaves nothing behind. */
  lemma OpenedTidy(w: World, addressOk: bool)
    requires Orderly(w) && !w.running
    ensures Orderly(Opened(w, addressOk))
  {
    OpenedKeeps(w, addressOk);
    if addressOk {
      BothCreatedIds(w);
      OpenedIs(w);
      NewHandlesTidy(BothCreated(w), Opened(w, true), NewSocket(w), NewGroup(w));
    }
  }

  lemma NewHandlesTidy(u: World, v: World, s: SocketId, g: GroupId)
    requires Tidy(u) && !u.running && u.connections.Keys == u.net.member.Keys
    requires s != INVALID ==> u.net.closedSockets[s] == 0
    requires g != INVALID ==> u.net.closedGroups[g] == 0
    requires var up := s != INVALID && g != INVALID;
      v == u.(socket := s, group := g, running := up,
        history := u.history.(heldSockets := if up then u.history.heldSockets + {s} else u.history.heldSockets,
                              heldGroups := if up then u.history.heldGroups + {g} else u.history.heldGroups))
    ensures Tidy(v)
  {
    assert u.net.member.Keys == {};
  }

  // ---------------------------------------------------------------- close and destroy

  lemma IdsClose(made: set<nat>, releases: multiset<nat>, held: set<nat>, current: nat, running: bool)
    requires Ids(made, releases, held, current, running)
    ensures var after := if current in made then releases + multiset{current} else releases;
      && Ids(made, after, held, INVALID, false)
      && (OthersReleased(releases, held, current, running) ==> OthersReleased(after, held, INVALID, false))
  {
  }

  /** The state in which every client has been closed and cleared. */
  function Emptied(w: World): World {
    w.(net := CloseAll(w.net, w.connections.Keys), connections := map[])
  }

  /** Closing every entry: all registered clients are closed, and nothing else about clients changes. */
  lemma EmptiedKeeps(w: World)
    requires Inv(w)
    ensures Inv(Emptied(w)) && Emptied(w).net.member == map[]
  {
    var hs := w.connections.Keys;
    var v := Emptied(w);
    assert NetInv(v.net, {}) && v.net.Engaged() == {} by {
      EmptySkips(w.net, hs);
      CloseAllKeeps(w.net, hs);
    }
    assert v.net.member == map[];
    assert Accounted(v) by {
      ClosedAccounts(w, v);
    }
    assert Streams(v.net, w.history.delivered) by {
      StreamsClose(w.net, w.history.delivered, hs);
    }
    assert Roster({}, w.history.expelled, w.history.rank, v.net.sent);
  }

  lemma ClosedAccounts(w: World, v: World)
    requires Accounted(w) && w.connections.Keys <= w.net.status.Keys
    requires v == w.(net := CloseAll(w.net, w.connections.Keys), connections := map[])
    ensures Accounted(v)
  {
  }

  lemma EmptySkips(n: Net, hs: set<Handle>)
    requires NetInv(n, {})
    ensures NetInv(n, hs)
  {
  }

  /** No entry is cleared that was not closed first. */
  lemma ClosedServerIs(w: World)
    requires w.fault == NoFault
    ensures var u := Emptied(w);
      ClosedServer(w) == u.(running := false, quit := true,
                            net := DestroyPollGroup(CloseListenSocket(u.net, w.socket), w.group),
                            socket := INVALID, group := INVALID, history := w.history.(closeCalled := true))
  {
    var e := ClosedEntries(w.(quit := true, running := false));
    assert forall h :: h in e.connections ==> e.connections[h].Destructible();
  }

  lemma DestroyedGroupIs(n: Net, g: GroupId)
    requires n.member == map[]
    ensures OnlyIds(n, DestroyPollGroup(n, g))
  {
    var m := DestroyPollGroup(n, g);
    assert m.member == map[];
  }

  lemma ClosedServerIds(w: World)
    requires Inv(w)
    ensures OnlyHandles(Emptied(w), ClosedServer(w)) && HandlesInOrder(ClosedServer(w))
    ensures Tidy(w) ==> Tidy(ClosedServer(w))
  {
    ClosedServerIs(w);
    EmptiedKeeps(w);
    DestroyedGroupIs(CloseListenSocket(Emptied(w).net, w.socket), w.group);
    IdsClose(w.net.sockets, w.net.closedSockets, w.history.heldSockets, w.socket, w.running);
    IdsClose(w.net.groups, w.net.closedGroups, w.history.heldGroups, w.group, w.running);
  }

  /** Closing the server keeps the invariant; afterwards it is not running, has quit and has no clients. */
  lemma ClosedServerKeeps(w: World)
    requires Inv(w)
    ensures var v := ClosedServer(w);
      Inv(v) && !v.running && v.quit && v.connections == map[] && (Tidy(w) ==> Tidy(v))
  {
    ClosedServerIs(w);
    EmptiedKeeps(w);
    ClosedServerIds(w);
    HandlesKeep(Emptied(w), ClosedServer(w));
  }

  /**
   The destructor closes a running server; of a stopped one it destroys the entries, which is a
   fault exactly when there are any.
   */
  lemma DestroyedKeeps(w: World)
    requires Inv(w)
    ensures Destroyed(w).fault == NoFault <==> w.running || w.connections == map[]
    ensures Destroyed(w) == if w.running then ClosedServer(w)
                            else if w.connections == map[] then w
                            else Raise(w, ErasedWhileOpen)
  {
    if w.running {
      ClosedServerKeeps(w);
    } else if w.connections != map[] {
      OpenEntries(w);
      StrandedEntries(w);
    }
  }

  lemma OpenEntries(w: World)
    requires Inv(w)
    ensures forall h :: h in w.connections ==> !w.connections[h].Destructible()
  {
    assert INVALID !in w.net.Engaged();
  }

  lemma StrandedEntries(w: World)
    requires !w.running && w.connections != map[]
    requires forall h :: h in w.connections ==> !w.connections[h].Destructible()
    ensures Destroyed(w) == Raise(w, ErasedWhileOpen)
  {
    var h :| h in w.connections;
  }
}
