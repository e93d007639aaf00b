/**
 Runs that reach the two ways in which opening leaves something behind.
 */
module OpeningRuns {
  import opened Transport
  import opened ServerModel
  import opened Invariant
  import opened ServerProofs
  import opened OperationProofs
  import opened Runs
  import opened Theorems
  import opened Openings
  import opened SampleRuns

  // ---------------------------------------------------------------- a half-failed opening

  /** The socket is created, and then the poll group is not. */
  const ONE_CREATION: seq<Turn> := [Turn([], true, 1)]

  lemma SecondCreationFails()
    ensures NewSocket(Start(ONE_CREATION, true)) == 1 && NewGroup(Start(ONE_CREATION, true)) == INVALID
  {
    var n := Start(ONE_CREATION, true).net;
    assert MovedAll(n, []) == n;
  }

  /** A lawful run of one call after which destroying the server leaves its socket open. */
  lemma AHalfOpeningLeaks()
    ensures Lawful(Start(ONE_CREATION, true), [Open(true)])
    ensures exists w :: Reached(Start(ONE_CREATION, true), [Open(true)], w) && !NothingLive(Destroyed(w).net)
  {
    var start := Start(ONE_CREATION, true);
    var w := Opened(start, true);
    InitialKeeps(start);
    SecondCreationFails();
    HalfOpeningLeaks(start, true);
    RunStep(start, Open(true), []);
    assert [Open(true)] + [] == [Open(true)];
    assert Reached(start, [Open(true)], w);
  }

  // ---------------------------------------------------------------- a second attempt

  /** The same, and then both creations succeed. */
  const SECOND_ATTEMPT: seq<Turn> := [Turn([], true, 1), Turn([], false, 0), Turn([], true, 2), Turn([], true, 1)]

  lemma FirstAttempt()
    ensures var w := Start(SECOND_ATTEMPT, true);
      && NewSocket(w) == 1 && NewGroup(w) == INVALID && BothCreated(w).net.script == SECOND_ATTEMPT[2..]
  {
    var n := Start(SECOND_ATTEMPT, true).net;
    assert MovedAll(n, []) == n;
    var m := CreateListenSocket(n).0;
    assert m.script[0] == Turn([], false, 0) && MovedAll(m, []) == m;
  }

  lemma SecondCreations(w: World)
    requires w.net.script == SECOND_ATTEMPT[2..] && 2 !in w.net.sockets && 1 !in w.net.groups
    ensures NewSocket(w) == 2 && NewGroup(w) == 1
  {
    assert w.net.script[0] == Turn([], true, 2) && MovedAll(w.net, []) == w.net;
    var m := CreateListenSocket(w.net).0;
    assert m.script[0] == Turn([], true, 1) && MovedAll(m, []) == m;
  }

  /** The state between the two attempts. */
  function AfterOneAttempt(): World {
    Opened(Start(SECOND_ATTEMPT, true), true)
  }

  lemma OneAttemptIs()
    ensures var w := AfterOneAttempt();
      && Inv(w) && !w.running && w.net.sockets == {1} && w.net.groups == {} && w.net.LiveSocket(1)
      && w.net.script == SECOND_ATTEMPT[2..]
  {
    var start := Start(SECOND_ATTEMPT, true);
    InitialKeeps(start);
    OpenedKeeps(start, true);
    FirstAttempt();
    BothCreatedIds(start);
    OpenedIs(start);
  }

  /**
   A server whose opening half failed is opened again, with success.  It was never opened while
   running, yet the socket of the first attempt is forgotten: not even closing the server releases it.
   */
  lemma ASecondAttemptLeaks()
    ensures exists w ::
      && ReachedLawfully(Start(SECOND_ATTEMPT, true), [Open(true)] + [Open(true)], w)
      && w.running && !NothingLive(ClosedServer(w).net) && HeldReleased(ClosedServer(w))
  {
    var start, u := Start(SECOND_ATTEMPT, true), AfterOneAttempt();
    var w := Opened(u, true);
    TwoAttempts();
    ReleasedExactlyOnce(start, [Open(true)] + [Open(true)], w);
    OneAttemptIs();
    ClosingAfterOpeningReleases(u, true);
  }

  lemma TwoAttempts()
    ensures Opened(AfterOneAttempt(), true).running
    ensures ReachedLawfully(Start(SECOND_ATTEMPT, true), [Open(true)] + [Open(true)], Opened(AfterOneAttempt(), true))
  {
    OneAttemptIs();
    SecondCreations(AfterOneAttempt());
    OpenedIs(AfterOneAttempt());
    TwoSteps(Start(SECOND_ATTEMPT, true), AfterOneAttempt(), Open(true), Open(true));
  }

  // ---------------------------------------------------------------- a failed reopening

  /** The client is accepted and joins; after that every creation fails. */
  const ONE_CLIENT: seq<Turn> := OPENS_AND_CONNECTS + [Turn([], true, 1), Turn([], true, 1)]

  lemma ClientIsAccepted()
    ensures var (n, ok) := AcceptConnection(Reported(ONE_CLIENT, true).net, 1);
      ok && n.script == [Turn([], true, 1)] && 1 in n.status && n.status[1] == Connected && n.LiveGroup(1)
  {
    var n := Reported(ONE_CLIENT, true).net;
    assert n.script == [Turn([], true, 1), Turn([], true, 1)];
    assert MovedAll(n, []) == n;
  }

  lemma ClientIsGrouped(w: World)
    requires w.net.script == [Turn([], true, 1)] && 1 in w.net.status && w.net.status[1] == Connected
    requires w.net.LiveGroup(1) && w.group == 1 && w.running && !w.quit
    ensures var v := JoinOutcome(w, 1); v.running && !v.quit && 1 in v.connections && v.net.script == []
  {
    assert MovedAll(w.net, []) == w.net;
    assert Yield(w.net).script == [];
  }

  lemma ClientJoins()
    ensures var v := OnConnecting(Reported(ONE_CLIENT, true), 1);
      v.running && !v.quit && 1 in v.connections && v.net.script == []
  {
    var w := Reported(ONE_CLIENT, true);
    OnConnectingIs(w, 1);
    ClientIsAccepted();
    ClientIsGrouped(w.(net := AcceptConnection(w.net, 1).0));
  }

  lemma NoScriptNoCreation(w: World)
    requires w.net.script == []
    ensures NewSocket(w) == INVALID
  {
  }

  /** The state before the second opening. */
  function WithOneClient(): World {
    OnConnecting(Reported(ONE_CLIENT, true), 1)
  }

  lemma ReopeningFails()
    ensures var w := Opened(WithOneClient(), true);
      w == Run(Start(ONE_CLIENT, true), [Open(true)] + ([DispatchRound] + [Open(true)]))
  {
    OpenRun(ONE_CLIENT, true);
    RunStep(Start(ONE_CLIENT, true), Open(true), [DispatchRound] + [Open(true)]);
    FirstRound();
    TwoSteps(AfterOpen(ONE_CLIENT, true), WithOneClient(), DispatchRound, Open(true));
  }

  lemma FirstRound()
    ensures Performed(AfterOpen(ONE_CLIENT, true), DispatchRound) == WithOneClient()
  {
    RoundIs(AfterOpen(ONE_CLIENT, true));
    ConnectRun(ONE_CLIENT, true);
  }

  lemma OneClientKeeps()
    ensures Inv(WithOneClient())
  {
    InitialKeeps(Start(ONE_CLIENT, true));
    OpenRun(ONE_CLIENT, true);
    OpenedKeeps(Start(ONE_CLIENT, true), true);
    FirstRound();
    ActionKeeps(AfterOpen(ONE_CLIENT, true), DispatchRound);
  }

  lemma StrandedByReopening(w: World)
    requires Inv(w) && 1 in w.connections && w.net.script == []
    ensures 1 in Opened(w, true).connections && Destroyed(Opened(w, true)).fault == ErasedWhileOpen
  {
    NoScriptNoCreation(w);
    FailedReopeningStrandsClients(w, true);
    OpenedIs(w);
  }

  /**
   A run that opens, connects a client and fails to open again; destroying the server then fails the
   client's assertion.
   */
  lemma AFailedReopeningStrandsItsClient()
    ensures exists w ::
      && Reached(Start(ONE_CLIENT, true), [Open(true)] + ([DispatchRound] + [Open(true)]), w)
      && 1 in w.connections && Destroyed(w).fault == ErasedWhileOpen
  {
    var w := Opened(WithOneClient(), true);
    assert Reached(Start(ONE_CLIENT, true), [Open(true)] + ([DispatchRound] + [Open(true)]), w) by {
      ReopeningFails();
    }
    assert 1 in w.connections && Destroyed(w).fault == ErasedWhileOpen by {
      OneClientKeeps();
      ClientJoins();
      StrandedByReopening(WithOneClient());
    }
  }
}
