/**
 The beginning of the concrete runs that show where the code is narrower than its intent: a fresh
 server is opened, and one client connects.
 */
module SampleRuns {
  import opened Transport
  import opened InputQueue
  import opened ServerModel
  import opened Runs

  /** Both creations of an opening succeed. */
  const OPENS: seq<Turn> := [Turn([], true, 1), Turn([], true, 1)]

  /** And then connection 1 is announced. */
  const OPENS_AND_CONNECTS: seq<Turn> := OPENS + [Turn([Connect(1)], true, 1)]

  /** A fresh server on a library that follows the script and may or may not withdraw events. */
  function Start(script: seq<Turn>, purges: bool): World {
    World(map[], false, false, INVALID, INVALID, true, 5,
          FreshNet(script, purges), Input([], [], [], []), NOTHING_YET, NoFault)
  }

  function AfterOpen(script: seq<Turn>, purges: bool): World
    requires |script| >= 2
  {
    var w := Start(script, purges);
    w.(running := true, socket := 1, group := 1,
       net := w.net.(sockets := {1}, groups := {1}, script := script[2..]),
       history := w.history.(heldSockets := {1}, heldGroups := {1}))
  }

  lemma OpenRun(script: seq<Turn>, purges: bool)
    requires OPENS <= script
    ensures Opened(Start(script, purges), true) == AfterOpen(script, purges)
  {
    var w := Start(script, purges);
    assert script[0] == OPENS[0] && script[1] == OPENS[1] == Turn([], true, 1);
    assert script[1..][0] == script[1] && script[1..][1..] == script[2..];
    assert MovedAll(w.net, []) == w.net;
    assert Yield(w.net) == w.net.(script := script[1..]);
    var n := CreateListenSocket(w.net).0;
    assert n == w.net.(sockets := {1}, script := script[1..]);
    assert MovedAll(n, []) == n;
    assert Yield(n) == n.(script := script[2..]);
  }

  /** The client's connecting event, just taken from the queue. */
  function Reported(script: seq<Turn>, purges: bool): World
    requires |script| >= 3
  {
    var w := AfterOpen(script, purges);
    w.(net := w.net.(status := map[1 := Connecting], pending := map[1 := []], script := script[3..]))
  }

  lemma ConnectRun(script: seq<Turn>, purges: bool)
    requires OPENS_AND_CONNECTS <= script
    ensures NextCallback(AfterOpen(script, purges).net) ==
      (Reported(script, purges).net, Report(Event(1, NoStatus, Connecting)))
    ensures DispatchedOne(AfterOpen(script, purges)).0 == OnConnecting(Reported(script, purges), 1)
  {
    var n := AfterOpen(script, purges).net;
    assert script[2] == OPENS_AND_CONNECTS[2] == Turn([Connect(1)], true, 1);
    assert n.script[0] == script[2] && n.script[1..] == script[3..];
    var event := Event(1, NoStatus, Connecting);
    var m := n.(status := map[1 := Connecting], pending := map[1 := [event]]);
    assert Moved(n, Connect(1)) == m;
    assert MovedAll(m, []) == m;
    OneMove(n, Connect(1));
    assert Yield(n) == m.(script := script[3..]);
    assert [event][1..] == [];
    assert map[1 := [event]][1 := []] == map[1 := []];
  }

  lemma OneMove(n: Net, m: Move)
    ensures MovedAll(n, [m]) == Moved(n, m)
  {
    assert MovedAll(n, [m]) == MovedAll(Moved(n, m), [m][1..]);
    assert [m][1..] == [];
  }

  /** One step of a run. */
  lemma RunStep(w: World, a: Action, rest: seq<Action>)
    ensures Run(w, [a] + rest) == Run(Performed(w, a), rest)
    ensures Lawful(w, [a] + rest) <==> (a.Open? ==> !w.running) && Lawful(Performed(w, a), rest)
  {
    assert ([a] + rest)[1..] == rest;
  }

  lemma RoundIs(w: World)
    requires w.running && !w.quit
    ensures Performed(w, DispatchRound) == DispatchedOne(w).0
  {
  }

  lemma TwoSteps(v: World, u: World, a: Action, b: Action)
    requires Performed(v, a) == u
    ensures Run(v, [a] + [b]) == Performed(u, b)
    ensures (a.Open? ==> !v.running) && (b.Open? ==> !u.running) ==> Lawful(v, [a] + [b])
  {
    RunStep(v, a, [b]);
    RunStep(u, b, []);
    assert [b] + [] == [b];
  }

  lemma TwoRounds(v: World, u: World)
    requires v.running && !v.quit && u == DispatchedOne(v).0 && u.running && !u.quit
    ensures Run(v, [DispatchRound] + [DispatchRound]) == DispatchedOne(u).0
    ensures Lawful(v, [DispatchRound] + [DispatchRound])
  {
    RoundIs(v);
    RoundIs(u);
    TwoSteps(v, u, DispatchRound, DispatchRound);
  }
}
