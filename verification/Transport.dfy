/**
 The networking library as the server sees it.  `Net` is the library's whole state and the
 functions below are its contract; nothing else is assumed about it.  Everything the
 environment decides (who connects, what arrives, who drops, which calls fail, which pending
 event is reported next) is read from `script`, one `Turn` per call whose outcome it decides,
 so a statement about every `Net` is a statement about every schedule.
 */
module Transport {
  const INVALID: nat := 0

  type Handle = nat
  type SocketId = nat
  type GroupId = nat

  newtype byte = b: int | 0 <= b < 256

  datatype Status =
    NoStatus | Connecting | FindingRoute | Connected | ClosedByPeer | ProblemDetectedLocally

  /** A connection the library has given up on but the application has not closed yet. */
  predicate Lost(s: Status) {
    s == ClosedByPeer || s == ProblemDetectedLocally
  }

  datatype Event = Event(connection: Handle, oldStatus: Status, currentStatus: Status)

  /** `serial` is the position of the message among all that ever arrived. */
  datatype Message = Message(from: Handle, data: seq<byte>, serial: nat)

  datatype Packet = Data(bytes: seq<byte>) | Welcome(who: Handle) | Joined(who: Handle) | Left(who: Handle)

  datatype SendType = Reliable | Unreliable

  datatype Send = Send(packet: Packet, kind: SendType)

  /** One thing the outside world may do between two calls of the application. */
  datatype Move =
    | Connect(h: Handle)
    | Arrive(h: Handle, data: seq<byte>)
    | Drop(h: Handle, cause: Status)
    | Notice(h: Handle, was: Status)

  /** The environment's share of one call: what happens first, then how the call turns out. */
  datatype Turn = Turn(moves: seq<Move>, ok: bool, pick: nat)

  datatype Received = Failure | Empty | Got(message: Message)

  datatype Net = Net(
    status: map<Handle, Status>,         // every connection the library ever announced
    accepted: set<Handle>,               // those accepted by the application
    member: map<Handle, GroupId>,        // poll-group membership
    inbox: seq<Message>,                 // received, not yet handed over, oldest first
    arrived: seq<Message>,               // everything received so far
    pending: map<Handle, seq<Event>>,    // status events not yet reported, in order per connection
    sent: map<Handle, seq<Send>>,        // what the application submitted, per receiver
    closed: multiset<Handle>,            // one entry per CloseConnection call
    sockets: set<SocketId>,              // listen sockets ever created
    closedSockets: multiset<SocketId>,   // one entry per CloseListenSocket call on one of them
    groups: set<GroupId>,                // poll groups ever created
    closedGroups: multiset<GroupId>,     // one entry per DestroyPollGroup call on one of them
    straySockets: multiset<SocketId>,    // one entry per CloseListenSocket call on anything else
    strayGroups: multiset<GroupId>,      // one entry per DestroyPollGroup call on anything else
    script: seq<Turn>,                   // the environment's remaining decisions
    purges: bool                         // closing a connection withdraws its unreported events
  ) {
    function Pending(h: Handle): seq<Event> {
      if h in pending then pending[h] else []
    }

    function SentTo(h: Handle): seq<Send> {
      if h in sent then sent[h] else []
    }

    predicate LiveSocket(s: SocketId) {
      s in sockets && closedSockets[s] == 0
    }

    predicate LiveGroup(g: GroupId) {
      g in groups && closedGroups[g] == 0
    }

    /** Accepted by the application and not yet closed by it. */
    function Engaged(): set<Handle> {
      set h | h in accepted && h in status && status[h] != NoStatus
    }
  }

  /** A library on which nothing has happened yet. */
  function FreshNet(script: seq<Turn>, purges: bool): Net {
    Net(map[], {}, map[], [], [], map[], map[], multiset{}, {}, multiset{}, {}, multiset{}, multiset{}, multiset{},
        script, purges)
  }

  // ---------------------------------------------------------------- the environment

  /** A move that is impossible in the current state does nothing. */
  function Moved(n: Net, m: Move): Net {
    match m
    case Connect(h) =>
      if h != INVALID && h !in n.status then
        n.(status := n.status[h := Connecting],
           pending := n.pending[h := [Event(h, NoStatus, Connecting)]])
      else n
    case Arrive(h, data) =>
      if h in n.status && n.status[h] == Connected then
        var message := Message(h, data, |n.arrived|);
        n.(inbox := n.inbox + [message], arrived := n.arrived + [message])
      else n
    case Drop(h, cause) =>
      if h in n.status && n.status[h] in {Connecting, Connected} && Lost(cause) then
        n.(status := n.status[h := cause],
           pending := n.pending[h := n.Pending(h) + [Event(h, n.status[h], cause)]])
      else n
    case Notice(h, was) =>
      if h in n.status && n.status[h] == NoStatus && was != FindingRoute then
        n.(pending := n.pending[h := n.Pending(h) + [Event(h, was, NoStatus)]])
      else n
  }

  function MovedAll(n: Net, moves: seq<Move>): (r: Net)
    ensures r.script == n.script
    decreases |moves|
  {
    if moves == [] then n else MovedAll(Moved(n, moves[0]), moves[1..])
  }

  /** The environment takes its next turn. */
  function Yield(n: Net): (r: Net)
    ensures |r.script| <= |n.script|
    ensures n.script != [] ==> |r.script| < |n.script|
  {
    if n.script == [] then n else MovedAll(n, n.script[0].moves).(script := n.script[1..])
  }

  predicate Favoured(n: Net) {
    n.script != [] && n.script[0].ok
  }

  function Picked(n: Net): nat {
    if n.script == [] then INVALID else n.script[0].pick
  }

  // ---------------------------------------------------------------- calls

  function CreateListenSocket(n: Net): (Net, SocketId) {
    var y, id := Yield(n), Picked(n);
    if Favoured(n) && id != INVALID && id !in y.sockets then (y.(sockets := y.sockets + {id}), id) else (y, INVALID)
  }

  function CreatePollGroup(n: Net): (Net, GroupId) {
    var y, id := Yield(n), Picked(n);
    if Favoured(n) && id != INVALID && id !in y.groups then (y.(groups := y.groups + {id}), id) else (y, INVALID)
  }

  function CloseListenSocket(n: Net, s: SocketId): Net {
    if s in n.sockets then n.(closedSockets := n.closedSockets + multiset{s})
    else n.(straySockets := n.straySockets + multiset{s})
  }

  function DestroyPollGroup(n: Net, g: GroupId): Net {
    if g in n.groups then
      n.(closedGroups := n.closedGroups + multiset{g},
         member := map h | h in n.member && n.member[h] != g :: n.member[h])
    else n.(strayGroups := n.strayGroups + multiset{g})
  }

  /** Succeeds only on a connection that is still waiting, and then connects it. */
  function AcceptConnection(n: Net, h: Handle): (r: (Net, bool))
    ensures |r.0.script| <= |n.script|
  {
    var y := Yield(n);
    if Favoured(n) && h in y.status && y.status[h] == Connecting then
      (y.(status := y.status[h := Connected],
          accepted := y.accepted + {h},
          pending := y.pending[h := y.Pending(h) + [Event(h, Connecting, Connected)]]), true)
    else (y, false)
  }

  function SetConnectionPollGroup(n: Net, h: Handle, g: GroupId): (r: (Net, bool))
    ensures |r.0.script| <= |n.script|
  {
    var y := Yield(n);
    if Favoured(n) && h in y.status && y.status[h] != NoStatus && y.LiveGroup(g) then
      (y.(member := y.member[h := g]), true)
    else (y, false)
  }

  /** The messages of `ms` that do not come from `hs`, in order. */
  function Without(ms: seq<Message>, hs: set<Handle>): seq<Message> {
    if ms == [] then []
    else if ms[0].from in hs then Without(ms[1..], hs)
    else [ms[0]] + Without(ms[1..], hs)
  }

  /** Closing every connection in `hs`, in whatever order. */
  function CloseAll(n: Net, hs: set<Handle>): Net {
    n.(status := map h | h in n.status :: if h in hs then NoStatus else n.status[h],
       member := n.member - hs,
       inbox := Without(n.inbox, hs),
       pending := if n.purges then n.pending - hs else n.pending,
       closed := n.closed + multiset(hs))
  }

  function CloseConnection(n: Net, h: Handle): Net {
    CloseAll(n, {h})
  }

  /** `s` appended to the log of every receiver in `to`. */
  function Extended(sent: map<Handle, seq<Send>>, to: set<Handle>, s: Send): map<Handle, seq<Send>> {
    map r | r in sent.Keys + to :: (if r in sent then sent[r] else []) + (if r in to then [s] else [])
  }

  /** Submitting `s` once to every receiver in `to`, in whatever order. */
  function SendAll(n: Net, to: set<Handle>, s: Send): Net {
    n.(sent := Extended(n.sent, to, s))
  }

  function SendMessageToConnection(n: Net, h: Handle, s: Send): Net {
    n.(sent := n.sent[h := n.SentTo(h) + [s]])
  }

  /** Position of the oldest message for group `g`, or `|ms|`. */
  function FirstFor(ms: seq<Message>, member: map<Handle, GroupId>, g: GroupId): (i: nat)
    ensures i <= |ms|
    ensures i < |ms| ==> ms[i].from in member && member[ms[i].from] == g
    ensures forall j :: 0 <= j < i ==> !(ms[j].from in member && member[ms[j].from] == g)
  {
    if ms == [] then 0
    else if ms[0].from in member && member[ms[0].from] == g then 0
    else 1 + FirstFor(ms[1..], member, g)
  }

  /** Asks for one message; fails exactly when the poll group is not usable. */
  function ReceiveMessageOnPollGroup(n: Net, g: GroupId): (r: (Net, Received))
    ensures |r.0.script| <= |n.script|
  {
    var y := Yield(n);
    if !y.LiveGroup(g) then (y, Failure)
    else
      var i := FirstFor(y.inbox, y.member, g);
      if i == |y.inbox| then (y, Empty)
      else (y.(inbox := y.inbox[..i] + y.inbox[i + 1..]), Got(y.inbox[i]))
  }

  datatype Callback = Quiet | Report(event: Event)

  /** One step of RunCallbacks: the next unreported event of some connection, or nothing more. */
  function NextCallback(n: Net): (r: (Net, Callback))
    ensures |r.0.script| <= |n.script|
    ensures n.script != [] ==> |r.0.script| < |n.script|
    ensures r.1.Report? ==> n.script != []
  {
    var y, h := Yield(n), Picked(n);
    var q := y.Pending(h);
    if Favoured(n) && q != [] then (y.(pending := y.pending[h := q[1..]]), Report(q[0])) else (y, Quiet)
  }

  /**
   The library as an object: every call replaces the state by what the contract says.
   */
  class Sockets {
    var net: Net

    constructor (net: Net)
      ensures this.net == net
    {
      this.net := net;
    }

    method Create() returns (socket: SocketId)
      modifies this
      ensures (net, socket) == CreateListenSocket(old(net))
    {
      var r := CreateListenSocket(net);
      net, socket := r.0, r.1;
    }

    method CreateGroup() returns (group: GroupId)
      modifies this
      ensures (net, group) == CreatePollGroup(old(net))
    {
      var r := CreatePollGroup(net);
      net, group := r.0, r.1;
    }

    method CloseSocket(socket: SocketId)
      modifies this
      ensures net == CloseListenSocket(old(net), socket)
    {
      net := CloseListenSocket(net, socket);
    }

    method DestroyGroup(group: GroupId)
      modifies this
      ensures net == DestroyPollGroup(old(net), group)
    {
      net := DestroyPollGroup(net, group);
    }

    method Accept(h: Handle) returns (ok: bool)
      modifies this
      ensures (net, ok) == AcceptConnection(old(net), h)
    {
      var r := AcceptConnection(net, h);
      net, ok := r.0, r.1;
    }

    method SetPollGroup(h: Handle, g: GroupId) returns (ok: bool)
      modifies this
      ensures (net, ok) == SetConnectionPollGroup(old(net), h, g)
    {
      var r := SetConnectionPollGroup(net, h, g);
      net, ok := r.0, r.1;
    }

    method Close(h: Handle)
      modifies this
      ensures net == CloseConnection(old(net), h)
    {
      net := CloseConnection(net, h);
    }

    method SendMessage(h: Handle, s: Send)
      modifies this
      ensures net == SendMessageToConnection(old(net), h, s)
    {
      net := SendMessageToConnection(net, h, s);
    }

    method Receive(g: GroupId) returns (received: Received)
      modifies this
      ensures (net, received) == ReceiveMessageOnPollGroup(old(net), g)
    {
      var r := ReceiveMessageOnPollGroup(net, g);
      net, received := r.0, r.1;
    }

    method RunCallback() returns (callback: Callback)
      modifies this
      ensures (net, callback) == NextCallback(old(net))
    {
      var r := NextCallback(net);
      net, callback := r.0, r.1;
    }
  }
}
