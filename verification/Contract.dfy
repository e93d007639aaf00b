/**
 The library's contract, call by call: what each move of the outside world does, and exactly when
 each call succeeds.
 */
module Contract {
  import opened Transport
  import opened TransportProofs

  // ---------------------------------------------------------------- the outside world

  /** A connection is announced once, under a handle not seen before. */
  lemma Announcing(n: Net, h: Handle)
    ensures var r := Moved(n, Connect(h));
      if h != INVALID && h !in n.status then
        r.status == n.status[h := Connecting] && r.Pending(h) == [Event(h, NoStatus, Connecting)]
      else r == n
  {
  }

  /** Bytes arrive on connected connections only, behind everything that arrived before. */
  lemma Arriving(n: Net, h: Handle, data: seq<byte>)
    ensures var r, m := Moved(n, Arrive(h, data)), Message(h, data, |n.arrived|);
      if h in n.status && n.status[h] == Connected then
        r.inbox == n.inbox + [m] && r.arrived == n.arrived + [m] && r.status == n.status
      else r == n
  {
  }

  /** A connecting or connected connection may be lost either way, which will be reported. */
  lemma Dropping(n: Net, h: Handle, cause: Status)
    ensures var r := Moved(n, Drop(h, cause));
      if h in n.status && n.status[h] in {Connecting, Connected}
         && cause in {ClosedByPeer, ProblemDetectedLocally} then
        && r.status == n.status[h := cause] && r.inbox == n.inbox
        && r.Pending(h) == n.Pending(h) + [Event(h, n.status[h], cause)]
      else r == n
  {
  }

  /** Of a closed connection only the status NONE may still be reported, and it may. */
  lemma Noticing(n: Net, h: Handle, was: Status)
    ensures var r := Moved(n, Notice(h, was));
      if h in n.status && n.status[h] == NoStatus && was != FindingRoute then
        r.status == n.status && r.Pending(h) == n.Pending(h) + [Event(h, was, NoStatus)]
      else r == n
  {
  }

  // ---------------------------------------------------------------- calls

  /** A creation succeeds exactly when the environment lets it and offers an id that is new. */
  lemma Creating(n: Net)
    ensures CreateListenSocket(n).1 != INVALID <==>
      n.script != [] && n.script[0].ok && n.script[0].pick != INVALID && n.script[0].pick !in n.sockets
    ensures CreatePollGroup(n).1 != INVALID <==>
      n.script != [] && n.script[0].ok && n.script[0].pick != INVALID && n.script[0].pick !in n.groups
  {
    YieldEvolves(n);
  }

  /** Accepting succeeds exactly on a connection still waiting, if the environment lets it. */
  lemma Accepting(n: Net, h: Handle)
    ensures var y, (r, ok) := Yield(n), AcceptConnection(n, h);
      && (ok <==> n.script != [] && n.script[0].ok && h in y.status && y.status[h] == Connecting)
      && (if ok then
            && r.status == y.status[h := Connected] && h in r.accepted
            && r.Pending(h) == y.Pending(h) + [Event(h, Connecting, Connected)]
          else r == y)
  {
  }

  /** Joining succeeds exactly for an unclosed connection and a live group, if the environment lets it. */
  lemma Joining(n: Net, h: Handle, g: GroupId)
    ensures var y, (r, ok) := Yield(n), SetConnectionPollGroup(n, h, g);
      && (ok <==> n.script != [] && n.script[0].ok && h in y.status && y.status[h] != NoStatus && y.LiveGroup(g))
      && r == if ok then y.(member := y.member[h := g]) else y
  {
  }

  /** A member of group `g` has a message waiting. */
  ghost predicate Waiting(n: Net, g: GroupId) {
    exists i :: 0 <= i < |n.inbox| && n.inbox[i].from in n.member && n.member[n.inbox[i].from] == g
  }

  /** Receiving fails exactly on a group that is not live, and else returns a message exactly when one waits. */
  lemma Receiving(n: Net, g: GroupId)
    ensures var y, received := Yield(n), ReceiveMessageOnPollGroup(n, g).1;
      && (received == Failure <==> !y.LiveGroup(g))
      && (received.Got? <==> y.LiveGroup(g) && Waiting(y, g))
  {
  }

  /** What is reported is the oldest unreported event of some connection, which is then reported. */
  lemma Reporting(n: Net)
    ensures var y, (r, callback) := Yield(n), NextCallback(n);
      if n.script != [] && n.script[0].ok && y.Pending(n.script[0].pick) != [] then
        var h := n.script[0].pick;
        callback == Report(y.Pending(h)[0]) && r.Pending(h) == y.Pending(h)[1..]
      else callback == Quiet && r == y
  {
  }

  /** Closing is counted, ends membership, drops waiting messages and withdraws events where the library does. */
  lemma Closing(n: Net, h: Handle)
    ensures var r := CloseConnection(n, h);
      && r.closed[h] == n.closed[h] + 1 && (h in n.status ==> r.status[h] == NoStatus) && h !in r.member
      && (forall i :: 0 <= i < |r.inbox| ==> r.inbox[i].from != h)
      && r.Pending(h) == (if n.purges then [] else n.Pending(h))
  {
    var froms := set i | 0 <= i < |n.inbox| :: n.inbox[i].from;
    WithoutKeeps(n.inbox, {h}, froms);
  }
}
