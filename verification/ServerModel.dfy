/**
 The server as a value: what each operation of the source makes of the whole state, branch for
 branch, with the example server's handler plugged in.  Every assertion of the source, and every
 use of a null packet or an empty queue, is a `Fault`.
 */
module ServerModel {
  import opened Transport
  import opened InputQueue
  import opened ClientConnections

  datatype Fault =
    | NoFault
    | UnregisteredConnection   // a lookup, or the handler's assertion, finds no entry
    | AlreadyRegistered        // a connecting handle already has an entry
    | ErasedWhileOpen          // an entry is erased, cleared or destroyed without being closed
    | UnregisteredSender       // a packet from a connection that is not registered
    | NullPacket               // the receive call failed and its packet is used anyway
    | UnmappedStatus           // a status outside the status table
    | ReadOfEmptyQueue

  datatype World = World(
    connections: map<Handle, Conn>,
    running: bool,
    quit: bool,
    socket: SocketId,
    group: GroupId,
    packetCallback: bool,
    maxPackets: nat,
    net: Net,
    input: Input,
    history: History,
    fault: Fault
  )

  /** What happened so far; nothing in the server reads it. */
  datatype History = History(
    delivered: seq<Message>,     // every packet given to the packet callback
    rank: map<Handle, nat>,      // the clients that joined, numbered in the order they did
    created: set<Handle>,        // every handle an entry was created for
    expelled: set<Handle>,       // the clients the application closed on its own
    heldSockets: set<SocketId>,  // the sockets of the successful opens
    heldGroups: set<GroupId>,    // the poll groups of the successful opens
    closeCalled: bool
  )

  const NOTHING_YET := History([], map[], {}, {}, {}, {}, false)

  const MAPPED: set<Status> := {NoStatus, ClosedByPeer, ProblemDetectedLocally, Connecting, Connected}

  function Raise(w: World, f: Fault): World {
    w.(fault := f)
  }

  // ---------------------------------------------------------------- sending

  /** A packet's size is passed on as an unsigned 32-bit number. */
  function Submitted(p: Packet): Packet {
    match p
    case Data(bytes) => Data(bytes[..|bytes| % 0x1_0000_0000])
    case _ => p
  }

  /** The connected entries, without `except` when it is a handle. */
  function Audience(w: World, except: Handle): set<Handle> {
    set h | h in w.connections && h != except && w.connections[h].state == StateConnected
  }

  function SentOne(w: World, h: Handle, p: Packet, kind: SendType): (r: World)
    ensures |r.net.script| <= |w.net.script|
  {
    w.(net := SendMessageToConnection(w.net, h, Send(Submitted(p), kind)))
  }

  function SentToAll(w: World, p: Packet, kind: SendType, except: Handle): (r: World)
    ensures |r.net.script| <= |w.net.script|
  {
    w.(net := SendAll(w.net, Audience(w, except), Send(Submitted(p), kind)))
  }

  // ---------------------------------------------------------------- the registry

  function Created(w: World, h: Handle): World {
    w.(connections := if h in w.connections then w.connections else w.connections[h := NewConn(h)],
       history := w.history.(created := w.history.created + {h}))
  }

  function Removed(w: World, h: Handle): (r: World)
    ensures |r.net.script| <= |w.net.script|
  {
    if h !in w.connections then Raise(w, UnregisteredConnection)
    else if w.connections[h].state != StateClosed then Raise(w, ErasedWhileOpen)
    else w.(connections := w.connections - {h})
  }

  function ClosedClient(w: World, h: Handle): (r: World)
    ensures |r.net.script| <= |w.net.script|
  {
    if h !in w.connections then Raise(w, UnregisteredConnection)
    else
      Removed(w.(net := CloseConnection(w.net, w.connections[h].handle),
                 connections := w.connections[h := w.connections[h].(state := StateClosed)]), h)
  }

  /** The application closes a client on its own, not in answer to an event; nobody is told. */
  function Expelled(w: World, h: Handle): World {
    ClosedClient(w.(history := w.history.(expelled := w.history.expelled + {h})), h)
  }

  function Accepted(w: World, h: Handle): (r: (World, bool))
    requires h in w.connections
    ensures |r.0.net.script| <= |w.net.script|
    ensures h in r.0.connections
  {
    var c := w.connections[h];
    var (n, ok) := AcceptConnection(w.net, c.handle);
    (w.(net := n, connections := w.connections[h := if ok then c.(state := StateConnected) else c]), ok)
  }

  function Grouped(w: World, h: Handle): (r: (World, bool))
    requires h in w.connections
    ensures |r.0.net.script| <= |w.net.script|
    ensures h in r.0.connections
  {
    var c := w.connections[h];
    var (n, ok) := SetConnectionPollGroup(w.net, c.handle, w.group);
    (w.(net := n, connections := w.connections[h := if ok then c.(group := w.group) else c]), ok)
  }

  // ---------------------------------------------------------------- the status handler

  function OnDropped(w: World, h: Handle, was: Status): (r: World)
    ensures |r.net.script| <= |w.net.script|
  {
    if h !in w.connections then Raise(w, UnregisteredConnection)
    else ClosedClient(if was == Connected then SentToAll(w, Left(h), Reliable, h) else w, h)
  }

  function Announced(w: World, h: Handle): (r: World)
    ensures |r.net.script| <= |w.net.script|
  {
    var r := w.history.rank;
    SentToAll(SentOne(w, h, Welcome(h), Reliable), Joined(h), Reliable, h)
      .(history := w.history.(rank := r[h := |r|]))
  }

  /** Puts the accepted client `h` into the poll group and announces it; closes it where that fails. */
  function GroupedOrClosed(w: World, h: Handle): (r: World)
    requires h in w.connections
    ensures |r.net.script| <= |w.net.script|
  {
    var (grouped, joined) := Grouped(w, h);
    if !joined then ClosedClient(grouped, h) else Announced(grouped, h)
  }

  function AcceptedOrClosed(w: World, h: Handle): (r: World)
    requires h in w.connections
    ensures |r.net.script| <= |w.net.script|
  {
    var (accepted, ok) := Accepted(w, h);
    if !ok then ClosedClient(accepted, h) else GroupedOrClosed(accepted, h)
  }

  function OnConnecting(w: World, h: Handle): (r: World)
    ensures |r.net.script| <= |w.net.script|
  {
    if h in w.connections then Raise(w, AlreadyRegistered) else AcceptedOrClosed(Created(w, h), h)
  }

  function OnStatusChange(w: World, e: Event): (r: World)
    ensures |r.net.script| <= |w.net.script|
  {
    if e.oldStatus !in MAPPED || e.currentStatus !in MAPPED then Raise(w, UnmappedStatus)
    else
      match e.currentStatus
      case ClosedByPeer => OnDropped(w, e.connection, e.oldStatus)
      case ProblemDetectedLocally => OnDropped(w, e.connection, e.oldStatus)
      case Connecting => OnConnecting(w, e.connection)
      case _ => w
  }

  // ---------------------------------------------------------------- one update

  /** Up to `rounds` rounds of `step`, which also says whether to go on. */
  function Repeat(step: World -> (World, bool), rounds: nat, w: World): World
    decreases rounds
  {
    if rounds == 0 then w
    else
      var (v, more) := step(w);
      if more then Repeat(step, rounds - 1, v) else v
  }

  /** One round of the drain; true when there may be more. */
  function DrainedOne(w: World): (r: (World, bool))
    ensures |r.0.net.script| <= |w.net.script|
  {
    var (n, received) := ReceiveMessageOnPollGroup(w.net, w.group);
    var v := w.(net := n);
    match received
    case Empty => (v, false)
    case Failure => (Raise(v, NullPacket), false)
    case Got(m) =>
      if m.from !in v.connections then (Raise(v, UnregisteredSender), false)
      else (v.(history := v.history.(delivered := v.history.delivered + [m])), true)
  }

  function Drained(w: World, rounds: nat): World {
    Repeat(DrainedOne, rounds, w)
  }

  function PendingPackets(w: World): World {
    if w.packetCallback then Drained(w, w.maxPackets) else w
  }

  /** One status event; true when the library may report more. */
  function DispatchedOne(w: World): (r: (World, bool))
    ensures r.1 ==> |r.0.net.script| < |w.net.script|
  {
    var (n, callback) := NextCallback(w.net);
    var v := w.(net := n);
    match callback
    case Quiet => (v, false)
    case Report(e) =>
      var r := OnStatusChange(v, e);
      (r, r.fault == NoFault)
  }

  /** Every round but the last takes a turn of the script, so this goes on until there is no more. */
  function Dispatched(w: World): World {
    Repeat(DispatchedOne, |w.net.script| + 1, w)
  }

  /** One round of the input loop; true when it goes on. */
  function ReadOne(w: World): (r: (World, bool))
    ensures r.1 ==> Unread(r.0.input) < Unread(w.input)
  {
    CheckConserves(w.input);
    var (i, available) := Check(w.input);
    if !available then (w.(input := i), false)
    else
      ReadAfterCheck(i);
      var (j, line) := Read(i);
      var v := w.(input := j);
      if line == EmptyQueue then (Raise(v, ReadOfEmptyQueue), false)
      else if line.text == QUIT then (v.(quit := true), false)
      else (v, true)
  }

  /** Every round but the last takes an unread line, so this goes on until there is no more. */
  function ReadAll(w: World): World {
    Repeat(ReadOne, Unread(w.input) + 1, w)
  }

  function Updated(w: World): World {
    if w.quit || !w.running then w
    else
      var drained := PendingPackets(w);
      if drained.fault != NoFault then drained
      else
        var dispatched := Dispatched(drained);
        if dispatched.fault != NoFault then dispatched else ReadAll(dispatched)
  }

  // ---------------------------------------------------------------- open, close, destroy

  function Opened(w: World, addressOk: bool): World {
    if !addressOk then w.(running := false)
    else
      var (n, s) := CreateListenSocket(w.net);
      var (m, g) := CreatePollGroup(n);
      var up := s != INVALID && g != INVALID;
      w.(net := m, socket := s, group := g, running := up,
         history := if up then w.history.(heldSockets := w.history.heldSockets + {s},
                                          heldGroups := w.history.heldGroups + {g})
                    else w.history)
  }

  /** The entries `r` with those of `hs` closed. */
  function EntriesShut(r: map<Handle, Conn>, hs: set<Handle>): map<Handle, Conn> {
    map h | h in r :: if h in hs then r[h].(state := StateClosed) else r[h]
  }

  function ClosedEntries(w: World): World {
    w.(net := CloseAll(w.net, w.connections.Keys), connections := EntriesShut(w.connections, w.connections.Keys))
  }

  /** Destroying every entry of the registry. */
  function Cleared(w: World): World {
    if forall h :: h in w.connections ==> w.connections[h].Destructible() then w.(connections := map[])
    else Raise(w, ErasedWhileOpen)
  }

  /** Releasing the server's own handles. */
  function Disconnected(w: World): World {
    w.(net := DestroyPollGroup(CloseListenSocket(w.net, w.socket), w.group),
       socket := INVALID, group := INVALID, history := w.history.(closeCalled := true))
  }

  function ClosedServer(w: World): World {
    Disconnected(Cleared(ClosedEntries(w.(quit := true, running := false))))
  }

  function Destroyed(w: World): World {
    Cleared(if w.running then ClosedServer(w) else w)
  }
}
