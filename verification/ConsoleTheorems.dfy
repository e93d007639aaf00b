/**
 What a run makes of the console input, and what is left of a run once quit was requested.
 */
module ConsoleTheorems {
  import opened Transport
  import opened InputQueue
  import opened ServerModel
  import opened Invariant
  import opened OperationProofs
  import opened Runs
  import opened Theorems

  ghost predicate Conserves(w: World, v: World, closed: bool) {
    Lines(v.input) == Lines(w.input) && (v.history.closeCalled <==> w.history.closeCalled || closed)
  }

  lemma UpdateConserves(w: World)
    requires Inv(w)
    ensures Conserves(w, Updated(w), false)
  {
    if w.running && !w.quit {
      UpdateStages(w);
    }
  }

  lemma ReadRoundConserves(w: World)
    requires Inv(w)
    ensures Conserves(w, Performed(w, ReadRound), false)
  {
    if !w.quit {
      ReadOneKeeps(w);
    }
  }

  /** No action loses or invents a line, and only closing the server counts as closing it. */
  lemma ActionConserves(w: World, a: Action)
    requires Inv(w)
    ensures Conserves(w, Performed(w, a), a.Close?)
  {
    match a
    case Update => UpdateConserves(w);
    case Close => ClosedServerIs(w);
    case DispatchRound => DispatchRoundLeaves(w);
    case ReadRound => ReadRoundConserves(w);
    case _ => SimpleActionConserves(w, a);
  }

  lemma SimpleActionConserves(w: World, a: Action)
    requires !a.Update? && !a.Close? && !a.DispatchRound? && !a.ReadRound?
    ensures Conserves(w, Performed(w, a), false)
  {
  }

  lemma {:induction false} RunConserves(w: World, actions: seq<Action>)
    requires Inv(w)
    ensures Conserves(w, Run(w, actions), Close in actions)
    decreases |actions|
  {
    if actions == [] {
    } else {
      ActionConserves(w, actions[0]);
      ActionKeeps(w, actions[0]);
      RunConserves(Performed(w, actions[0]), actions[1..]);
    }
  }

  /**
   Quit prefix: the lines read are a prefix of the whole input, in which only the last can be the
   quit command; quit is requested exactly when it was read or the server was closed.
   */
  lemma LinesAreReadUpToQuit(start: World, actions: seq<Action>, w: World)
    requires Reached(start, actions, w)
    ensures w.input.taken <= Flatten(start.input.future)
    ensures forall i :: 0 <= i < |w.input.taken| - 1 ==> w.input.taken[i] != "/quit"
    ensures w.quit <==> Close in actions || "/quit" in w.input.taken
    ensures w.input.taken + w.input.queue == w.input.added
  {
    InitialKeeps(start);
    RunConserves(start, actions);
    ReachedInv(start, actions, w);
    assert Lines(start.input) == Flatten(start.input.future);
  }

  /** An update that takes place and does not request quit leaves no line unread that was available. */
  lemma UpdatesReadWhatIsThere(start: World, actions: seq<Action>, w: World)
    requires Reached(start, actions, w) && w.running && !w.quit && !Updated(w).quit
    ensures Updated(w).input.queue == []
  {
    ReachedInv(start, actions, w);
    UpdateStages(w);
  }

  /** A single round reads the next line, if one is available, and only that. */
  lemma RoundsReadOneLine(w: World)
    requires w.running && !w.quit
    ensures var v := Performed(w, ReadRound);
      && v == w.(input := v.input, quit := v.quit) && Lines(v.input) == Lines(w.input)
      && (v.input.taken == w.input.taken ==> !v.quit && v.input.queue == [])
      && (v.input.taken != w.input.taken ==> exists line: string ::
            v.input.taken == w.input.taken + [line] && (v.quit <==> line == "/quit"))
  {
    ReadOneHears(w);
  }

  // ---------------------------------------------------------------- obeying quit

  /** The lines that a server has not read yet, in their order. */
  function Unheard(i: Input): seq<string> {
    i.queue + Flatten(i.future)
  }

  /** `v` is what `k` updates make of `w`: nothing is lost, and `k` batches are heard or all are. */
  ghost predicate Listened(w: World, v: World, k: nat) {
    && Conserves(w, v, false) && (k == 0 ==> v == w) && (w.quit ==> v.quit)
    && (v.quit || |v.input.future| <= if |w.input.future| < k then 0 else |w.input.future| - k)
    && (v.quit || k == 0 || v.input.queue == [])
  }

  lemma UpdateListens(w: World)
    requires Inv(w) && w.running
    ensures Inv(Updated(w)) && Updated(w).running && Listened(w, Updated(w), 1)
  {
    UpdateConserves(w);
    if !w.quit {
      UpdateStages(w);
    }
  }

  lemma ListenedOn(w: World, v: World, u: World, k: nat)
    requires Listened(w, v, 1) && Listened(v, u, k)
    ensures Listened(w, u, k + 1)
  {
  }

  ghost predicate Running(w: World) {
    Inv(w) && w.running
  }

  /** A running server stays running and has listened to `k` batches. */
  ghost predicate Listens(w: World, v: World, k: nat) {
    Running(v) && Listened(w, v, k)
  }

  lemma ListensFurther(w: World, v: World, k: nat)
    requires Running(w) && Listens(UpdateRound(w).0, v, k)
    ensures Listens(w, v, k + 1)
  {
    UpdateListens(w);
    ListenedOn(w, Updated(w), v, k);
  }

  lemma UpdatesListen(w: World, k: nat)
    requires Running(w)
    ensures Listens(w, Updates(w, k), k)
  {
    forall v | Running(v) ensures Running(UpdateRound(v).0) && Listens(v, v, 0) {
      UpdateListens(v);
    }
    forall v, x, n: nat | Running(v) && Listens(UpdateRound(v).0, x, n) ensures Listens(v, x, n + 1) {
      ListensFurther(v, x, n);
    }
    RepeatCounts(UpdateRound, k, w, v => Running(v), (v: World, x: World, n: nat) => Listens(v, x, n));
  }

  lemma QuitMeansRead(w: World)
    requires Inv(w)
    ensures w.quit <==> w.history.closeCalled || "/quit" in w.input.taken
  {
  }

  /**
   The server obeys: a running server not yet told to quit is told so by as many updates as the
   input has batches left, and at least one, exactly when the quit command is among its unread lines.
   */
  lemma QuitIsObeyed(w: World, k: nat)
    requires Inv(w) && w.running && !w.quit && k > 0 && k >= |w.input.future|
    ensures Updates(w, k).quit <==> "/quit" in Unheard(w.input)
  {
    UpdatesListen(w, k);
    QuitMeansRead(w);
    QuitMeansRead(Updates(w, k));
    QuitAmongLines(w, Updates(w, k), k);
  }

  lemma QuitAmongLines(w: World, v: World, k: nat)
    requires Listened(w, v, k) && k > 0 && k >= |w.input.future|
    requires "/quit" !in w.input.taken && !w.history.closeCalled
    requires v.quit <==> v.history.closeCalled || "/quit" in v.input.taken
    ensures v.quit <==> "/quit" in Unheard(w.input)
  {
    assert Lines(w.input) == w.input.taken + Unheard(w.input);
    assert "/quit" in Unheard(w.input) <==> "/quit" in Lines(v.input);
    if !v.quit {
      assert Lines(v.input) == v.input.taken;
    }
  }

  /** Lines other than the quit command are all read, and none of them stops the server. */
  lemma OtherLinesAreRead(w: World, k: nat)
    requires Inv(w) && w.running && !w.quit && k > 0 && k >= |w.input.future|
    requires forall line :: line in Unheard(w.input) ==> line != "/quit"
    ensures var v := Updates(w, k);
      !v.quit && v.running && v.input.queue == [] && v.input.taken == w.input.taken + Unheard(w.input)
  {
    UpdatesListen(w, k);
    QuitIsObeyed(w, k);
    AllRead(w, Updates(w, k), k);
  }

  lemma AllRead(w: World, v: World, k: nat)
    requires Listened(w, v, k) && k > 0 && k >= |w.input.future| && !v.quit
    ensures v.input.queue == [] && v.input.taken == w.input.taken + Unheard(w.input)
  {
    assert Lines(w.input) == w.input.taken + Unheard(w.input);
    assert Lines(v.input) == v.input.taken;
  }

  /** Quit is not requested before the command is among the lines. */
  lemma QuitMeansUnheard(w: World, k: nat)
    requires Inv(w) && w.running && !w.quit
    ensures Updates(w, k).quit ==> "/quit" in Unheard(w.input)
  {
    UpdatesListen(w, k);
    QuitMeansRead(w);
    QuitMeansRead(Updates(w, k));
    QuitIsALine(w, Updates(w, k), k);
  }

  lemma QuitIsALine(w: World, v: World, k: nat)
    requires Listened(w, v, k) && "/quit" !in w.input.taken && !w.history.closeCalled
    requires v.quit <==> v.history.closeCalled || "/quit" in v.input.taken
    ensures v.quit ==> "/quit" in Unheard(w.input)
  {
    assert Lines(w.input) == w.input.taken + Unheard(w.input);
    assert "/quit" in Unheard(w.input) <==> "/quit" in Lines(v.input);
  }

  /** A server that is not running never listens. */
  lemma {:induction false} StoppedServersDoNotListen(w: World, k: nat)
    requires !w.running
    ensures Updates(w, k) == w
  {
    if k == 0 {
    } else {
      UpdatesStep(w, k);
      StoppedServersDoNotListen(w, k - 1);
    }
  }

  // ---------------------------------------------------------------- after quit

  /** Calls that close clients. */
  predicate Closes(a: Action) {
    a.Close? || a.Expel?
  }

  /** What cannot change once quit was requested; the registry can only lose clients, by calls that close them. */
  ghost predicate Frozen(w: World, v: World, closing: bool) {
    && v.quit && v.input == w.input
    && v.history.delivered == w.history.delivered
    && v.history.created == w.history.created && v.history.rank == w.history.rank
    && v.connections.Keys <= w.connections.Keys
    && (!closing ==> v.connections == w.connections)
  }

  lemma ActionFrozen(w: World, a: Action)
    requires w.quit
    ensures Frozen(w, Performed(w, a), Closes(a))
  {
    if a.Expel? {
      ExpelledFrozen(w, a.h);
    } else if a.Close? {
      ClosedFrozen(w);
    }
  }

  lemma ExpelledFrozen(w: World, h: Handle)
    requires w.quit
    ensures Frozen(w, Performed(w, Expel(h)), true)
  {
  }

  lemma ClosedFrozen(w: World)
    requires w.quit
    ensures Frozen(w, ClosedServer(w), true)
  {
  }

  /**
   Quit is absorbing: whatever is called afterwards, quit stays requested, no line is read, no packet
   handed over, no client registered, created or announced, and nobody leaves the registry unless a
   call closes clients.
   */
  lemma {:induction false} QuitIsAbsorbing(w: World, actions: seq<Action>)
    requires w.quit
    ensures Frozen(w, Run(w, actions), exists a :: a in actions && Closes(a))
    decreases |actions|
  {
    if actions == [] {
    } else {
      ActionFrozen(w, actions[0]);
      QuitIsAbsorbing(Performed(w, actions[0]), actions[1..]);
    }
  }

  /** In particular an update after quit does nothing at all. */
  lemma UpdateAfterQuit(w: World, actions: seq<Action>)
    requires w.quit
    ensures Updated(Run(w, actions)) == Run(w, actions)
  {
    QuitIsAbsorbing(w, actions);
  }
}
