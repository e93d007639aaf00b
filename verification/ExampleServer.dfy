/**
 The example program: it opens the server, updates it until it is told to quit, and closes it.  Its
 run is one of the lawful runs, so everything that holds of those holds of the program.
 */
module ExampleServers {
  import opened InputQueue
  import opened ServerModel
  import opened Invariant
  import opened OperationProofs
  import opened Runs
  import opened Theorems
  import opened ConsoleTheorems
  import opened Servers

  lemma {:induction false} RunFurther(start: World, actions: seq<Action>, a: Action)
    ensures Run(start, actions + [a]) == Performed(Run(start, actions), a)
    ensures Lawful(start, actions) && (a.Open? ==> !Run(start, actions).running) ==> Lawful(start, actions + [a])
    decreases |actions|
  {
    if actions == [] {
      assert actions + [a] == [a];
    } else {
      RunFurther(Performed(start, actions[0]), actions[1..], a);
      assert (actions + [a])[1..] == actions[1..] + [a];
    }
  }

  lemma ReachedFurther(start: World, actions: seq<Action>, w: World, a: Action)
    requires ReachedLawfully(start, actions, w) && (a.Open? ==> !w.running)
    ensures Inv(w) && ReachedLawfully(start, actions + [a], Performed(w, a))
  {
    ReachedInv(start, actions, w);
    RunFurther(start, actions, a);
  }

  // ---------------------------------------------------------------- when the program ends

  /** The calls of a program that updates `k` times. */
  function Calls(k: nat): seq<Action> {
    [Open(true)] + UpdateCalls(k)
  }

  lemma CallsAreUpdates(start: World, k: nat)
    ensures Run(start, Calls(k)) == Updates(Opened(start, true), k)
  {
    assert Calls(k)[1..] == UpdateCalls(k);
    UpdatesAreARun(Opened(start, true), k);
  }

  /** The opening succeeds and the quit command is typed some time. */
  ghost predicate Ends(start: World) {
    Opened(start, true).running && "/quit" in Flatten(start.input.future)
  }

  /**
   The program's loop ends exactly when the opening succeeds and the input has the quit command: then
   it ends after as many updates as the input has batches, or earlier, and otherwise it never does.
   */
  lemma ProgramEnds(start: World, k: nat)
    requires Initial(start)
    ensures Run(start, Calls(k)).quit ==> Ends(start)
    ensures Ends(start) && k >= |start.input.future| ==> Run(start, Calls(k)).quit
  {
    var w := Opened(start, true);
    CallsAreUpdates(start, k);
    InitialKeeps(start);
    OpenedKeeps(start, true);
    assert w.input == start.input && !w.quit;
    if w.running {
      var n := if k < |w.input.future| then |w.input.future| else k;
      EndsAmongLines(w, k, n);
    } else {
      StoppedServersDoNotListen(w, k);
    }
  }

  lemma EndsAmongLines(w: World, k: nat, n: nat)
    requires Inv(w) && w.running && !w.quit && n >= k && n >= |w.input.future|
    ensures Updates(w, k).quit ==> "/quit" in Unheard(w.input)
    ensures "/quit" in Unheard(w.input) && w.input.queue == [] && k == n ==> Updates(w, k).quit
  {
    QuitMeansUnheard(w, k);
    if k == n > 0 {
      QuitIsObeyed(w, k);
    } else if k == n {
      assert Flatten(w.input.future) == [];
    }
  }

  // ---------------------------------------------------------------- the program

  /** Opens a fresh server. */
  method Begin(server: Server)
    requires Initial(server.View())
    modifies server`running, server`listeningSocket, server`pollGroup, server`history, server.sockets
    ensures ReachedLawfully(old(server.View()), Calls(0), server.View())
  {
    ghost var start := server.View();
    ReachedFurther(start, [], start, Open(true));
    assert [] + [Open(true)] == Calls(0);
    server.OpenConnection(true);
  }

  /** Updates the server once more. */
  method Continue(server: Server, ghost start: World, ghost k: nat)
    requires server.Owned() && ReachedLawfully(start, Calls(k), server.View())
    modifies server, server.sockets, server.input, server.objects
    ensures server.Owned() && ReachedLawfully(start, Calls(k + 1), server.View())
    ensures fresh(server.objects - old(server.objects))
  {
    ReachedFurther(start, Calls(k), server.View(), Update);
    assert Calls(k) + [Update] == Calls(k + 1);
    server.UpdateConnection();
  }

  /** Closes the server. */
  method End(server: Server, ghost start: World, ghost k: nat)
    requires server.Owned() && ReachedLawfully(start, Calls(k), server.View())
    modifies server, server.sockets, server.objects
    ensures server.Owned() && server.connections == map[]
    ensures ReachedLawfully(start, Calls(k) + [Close], server.View())
  {
    ReachedFurther(start, Calls(k), server.View(), Close);
    InvIsKeyed(server.View());
    server.CloseConnection();
  }

  /**
   The program, on an input on which its loop ends; on any other it never does.  It makes at most as
   many updates as the input has batches.
   */
  method Serve(server: Server) returns (k: nat)
    requires server.Owned() && server.objects == {} && Initial(server.View()) && Ends(server.View())
    modifies server, server.sockets, server.input
    ensures server.Owned() && server.connections == map[] && k <= |old(server.View()).input.future|
    ensures ReachedLawfully(old(server.View()), Calls(k) + [Close], server.View())
    ensures Run(old(server.View()), Calls(k)).quit
  {
    ghost var start := server.View();
    Begin(server);
    k := 0;
    while !server.quitRequested
      invariant k <= |start.input.future| && server.Owned() && fresh(server.objects)
      invariant ReachedLawfully(start, Calls(k), server.View())
      decreases |start.input.future| - k
    {
      ProgramEnds(start, k);
      Continue(server, start, k);
      k := k + 1;
    }
    End(server, start, k);
  }

  /** The first `updates` rounds of the program, on any input, and then a close. */
  method ServeFor(server: Server, updates: nat) returns (k: nat)
    requires server.Owned() && server.objects == {} && Initial(server.View())
    modifies server, server.sockets, server.input
    ensures server.Owned() && server.connections == map[] && k <= updates
    ensures ReachedLawfully(old(server.View()), Calls(k) + [Close], server.View())
    ensures k < updates ==> Run(old(server.View()), Calls(k)).quit
    ensures !Ends(old(server.View())) ==> k == updates
  {
    ghost var start := server.View();
    Begin(server);
    k := 0;
    while !server.quitRequested && k < updates
      invariant k <= updates && server.Owned() && fresh(server.objects)
      invariant ReachedLawfully(start, Calls(k), server.View())
    {
      Continue(server, start, k);
      k := k + 1;
    }
    ProgramEnds(start, k);
    End(server, start, k);
  }
}
