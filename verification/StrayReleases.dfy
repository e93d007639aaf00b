/**
 Closing a server passes its handles to the library even when nothing was ever assigned to them: the
 source does not initialise them.  When that releases a handle the server was never given.
 */
module StrayReleases {
  import opened Transport
  import opened ServerModel
  import opened Invariant
  import opened OperationProofs
  import opened Runs
  import opened Theorems
  import opened SampleRuns

  /** The server's own handles are ones the library gave out, or the invalid one. */
  ghost predicate KnownSocket(w: World) {
    w.socket == INVALID || w.socket in w.net.sockets
  }

  ghost predicate KnownGroup(w: World) {
    w.group == INVALID || w.group in w.net.groups
  }

  /** No handle was released that the library did not give out. */
  ghost predicate NoStrays(releases: multiset<nat>) {
    forall s :: s != INVALID ==> releases[s] == 0
  }

  /** The server is closed before it is opened at a good address for the first time. */
  predicate ClosesFirst(actions: seq<Action>) {
    actions != [] && actions[0] != Open(true) && (actions[0].Close? || ClosesFirst(actions[1..]))
  }

  // ---------------------------------------------------------------- single calls

  lemma OpenedKnows(w: World)
    requires Inv(w)
    ensures var v := Opened(w, true);
      && KnownSocket(v) && KnownGroup(v)
      && v.net.straySockets == w.net.straySockets && v.net.strayGroups == w.net.strayGroups
  {
    BothCreatedIds(w);
    OpenedIs(w);
  }

  lemma ClosedServerStrays(w: World)
    requires Inv(w)
    ensures var v := ClosedServer(w);
      && v.socket == INVALID && v.group == INVALID
      && v.net.straySockets ==
           (if w.socket in w.net.sockets then w.net.straySockets else w.net.straySockets + multiset{w.socket})
      && v.net.strayGroups ==
           (if w.group in w.net.groups then w.net.strayGroups else w.net.strayGroups + multiset{w.group})
  {
    ClosedServerIs(w);
  }

  lemma OneMoreStray(strays: multiset<nat>, made: set<nat>, id: nat)
    ensures NoStrays(if id in made then strays else strays + multiset{id}) <==>
      NoStrays(strays) && (id == INVALID || id in made)
  {
    var more := strays + multiset{id};
    assert more[id] > 0;
    assert forall s :: s != id ==> more[s] == strays[s];
  }

  lemma ClosedServerReleasesStrays(w: World)
    requires Inv(w)
    ensures var n := ClosedServer(w).net;
      && (NoStrays(n.straySockets) <==> NoStrays(w.net.straySockets) && KnownSocket(w))
      && (NoStrays(n.strayGroups) <==> NoStrays(w.net.strayGroups) && KnownGroup(w))
  {
    ClosedServerStrays(w);
    OneMoreStray(w.net.straySockets, w.net.sockets, w.socket);
    OneMoreStray(w.net.strayGroups, w.net.groups, w.group);
  }

  /** What a call other than an opening at a good address and a closing leaves alone. */
  ghost predicate SameHandles(w: World, v: World) {
    v.socket == w.socket && v.group == w.group && SameIds(w.net, v.net)
  }

  lemma OtherCallsStray(w: World, a: Action)
    requires Inv(w) && a != Open(true) && !a.Close?
    ensures SameHandles(w, Performed(w, a))
  {
    if !a.Open? {
      ActionFrame(w, a);
    }
  }

  /** Only closing releases stray handles, and only unknown ones; opening and closing make them known. */
  lemma CallStrays(w: World, a: Action)
    requires Inv(w)
    ensures var v := Performed(w, a);
      && (NoStrays(v.net.straySockets) <==> NoStrays(w.net.straySockets) && (a.Close? ==> KnownSocket(w)))
      && (NoStrays(v.net.strayGroups) <==> NoStrays(w.net.strayGroups) && (a.Close? ==> KnownGroup(w)))
      && (KnownSocket(v) <==> KnownSocket(w) || a == Open(true) || a.Close?)
      && (KnownGroup(v) <==> KnownGroup(w) || a == Open(true) || a.Close?)
  {
    if a == Open(true) {
      OpenedKnows(w);
    } else if a.Close? {
      ClosedServerStrays(w);
      ClosedServerReleasesStrays(w);
    } else {
      OtherCallsStray(w, a);
    }
  }

  // ---------------------------------------------------------------- whole runs

  lemma {:induction false} RunStrays(w: World, actions: seq<Action>)
    requires Inv(w)
    ensures var v := Run(w, actions);
      && (NoStrays(v.net.straySockets) <==> NoStrays(w.net.straySockets) && (KnownSocket(w) || !ClosesFirst(actions)))
      && (NoStrays(v.net.strayGroups) <==> NoStrays(w.net.strayGroups) && (KnownGroup(w) || !ClosesFirst(actions)))
    decreases |actions|
  {
    if actions == [] {
    } else {
      ActionKeeps(w, actions[0]);
      RunStrays(Performed(w, actions[0]), actions[1..]);
      CallStrays(w, actions[0]);
    }
  }

  /**
   A run releases a handle that the library did not give out exactly when the server is closed before
   it was opened at a good address, and the handle happens not to be the invalid one.
   */
  lemma StrayReleasesExactlyWhenClosedFirst(start: World, actions: seq<Action>, w: World)
    requires Reached(start, actions, w)
    ensures NoStrays(w.net.straySockets) <==> start.socket == INVALID || !ClosesFirst(actions)
    ensures NoStrays(w.net.strayGroups) <==> start.group == INVALID || !ClosesFirst(actions)
  {
    InitialKeeps(start);
    RunStrays(start, actions);
  }

  lemma {:induction false} RunKnows(w: World, actions: seq<Action>)
    requires Inv(w)
    ensures var v := Run(w, actions);
      && (KnownSocket(v) <==> KnownSocket(w) || Open(true) in actions || Close in actions)
      && (KnownGroup(v) <==> KnownGroup(w) || Open(true) in actions || Close in actions)
    decreases |actions|
  {
    if actions == [] {
    } else {
      ActionKeeps(w, actions[0]);
      RunKnows(Performed(w, actions[0]), actions[1..]);
      CallStrays(w, actions[0]);
    }
  }

  /** After a run each handle is the library's exactly when it was invalid at first or one of these calls was made. */
  lemma HandlesAreKnown(start: World, actions: seq<Action>, w: World)
    requires Reached(start, actions, w)
    ensures KnownSocket(w) <==> start.socket == INVALID || Open(true) in actions || Close in actions
    ensures KnownGroup(w) <==> start.group == INVALID || Open(true) in actions || Close in actions
  {
    InitialKeeps(start);
    RunKnows(start, actions);
  }

  /** Destroying the server never does it: only a running server is closed then, and its handles were assigned. */
  lemma DestructionReleasesOwnHandles(w: World)
    requires Inv(w)
    ensures Destroyed(w).net.straySockets == w.net.straySockets && Destroyed(w).net.strayGroups == w.net.strayGroups
  {
    DestroyedKeeps(w);
    if w.running {
      ClosedServerIs(w);
    }
  }

  /** A fresh server whose memory happened to contain 7. */
  function Uninitialised(): World {
    Start([], true).(socket := 7, group := 7)
  }

  /** Closing it at once releases both. */
  lemma ClosingAFreshServerStrays()
    ensures exists w :: Reached(Uninitialised(), [Close], w) && w.net.straySockets[7] == w.net.strayGroups[7] == 1
  {
    var start := Uninitialised();
    var w := ClosedServer(start);
    ClosedServerIs(start);
    RunStep(start, Close, []);
    assert [Close] + [] == [Close];
    assert Reached(start, [Close], w);
  }
}
