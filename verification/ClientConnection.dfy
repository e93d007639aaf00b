/**
 The server's handle on one client: an owned resource with a state, move semantics and a
 destructor that insists on a preceding close.  `Conn` is its value; uninitialised poll-group
 memory is written as INVALID.
 */
module ClientConnections {
  import opened Transport

  datatype ConnectionState = StateNone | StateConnecting | StateConnected | StateClosed

  datatype Conn = Conn(handle: Handle, group: GroupId, state: ConnectionState) {
    predicate Valid() {
      handle != INVALID
    }

    /** What the destructor asserts. */
    predicate Destructible()
      ensures Destructible() <==> handle == INVALID || state in {StateClosed, StateNone}
    {
      !Valid() || state == StateClosed || state == StateNone
    }

    function Invalidated(): Conn {
      this.(handle := INVALID)
    }
  }

  function NewConn(h: Handle): Conn {
    Conn(h, INVALID, StateConnecting)
  }

  /** What a move constructor builds: the recorded poll group stays behind. */
  function MovedFrom(other: Conn): Conn {
    Conn(other.handle, INVALID, other.state)
  }

  /** What a move assignment leaves in its target: the target keeps its own poll group. */
  function AssignedFrom(target: Conn, other: Conn): Conn {
    target.(handle := other.handle, state := other.state)
  }

  class ClientConnection {
    const sockets: Sockets
    var handle: Handle
    var pollGroup: GroupId
    var state: ConnectionState

    function View(): Conn
      reads this
    {
      Conn(handle, pollGroup, state)
    }

    constructor (sockets: Sockets, h: Handle)
      ensures View() == NewConn(h) && this.sockets == sockets
      ensures handle == h && state == StateConnecting
    {
      this.sockets := sockets;
      handle, pollGroup, state := h, INVALID, StateConnecting;
    }

    constructor Move(other: ClientConnection)
      modifies other
      ensures View() == MovedFrom(old(other.View())) && sockets == other.sockets
      ensures other.View() == old(other.View()).Invalidated()
      ensures handle == old(other.handle) && state == old(other.state)
      ensures other.handle == INVALID && other.state == old(other.state)
    {
      sockets := other.sockets;
      handle, pollGroup, state := other.handle, INVALID, other.state;
      new;
      other.Invalidate();
    }

    method Invalidate()
      modifies this
      ensures View() == old(View()).Invalidated()
    {
      handle := INVALID;
    }

    method MoveAssign(other: ClientConnection)
      requires sockets == other.sockets
      modifies this, other
      ensures this == other ==> View() == old(View())
      ensures this != other ==>
        View() == AssignedFrom(old(View()), old(other.View())) && other.View() == old(other.View()).Invalidated()
      ensures handle == old(other.handle) && state == old(other.state)
      ensures this != other ==> other.handle == INVALID && other.state == old(other.state)
    {
      if this != other {
        handle := other.handle;
        state := other.state;
        other.Invalidate();
      }
    }

    /** The destructor. */
    method Destroy()
      requires handle == INVALID || state == StateClosed || state == StateNone
    {
      assert handle == INVALID || state == StateClosed || state == StateNone;
    }

    method Accept() returns (ok: bool)
      modifies this, sockets
      ensures (sockets.net, ok) == AcceptConnection(old(sockets.net), handle)
      ensures View() == if ok then old(View()).(state := StateConnected) else old(View())
    {
      ok := sockets.Accept(handle);
      if ok {
        state := StateConnected;
      }
    }

    method SetPollGroup(group: GroupId) returns (ok: bool)
      modifies this, sockets
      ensures (sockets.net, ok) == SetConnectionPollGroup(old(sockets.net), handle, group)
      ensures View() == if ok then old(View()).(group := group) else old(View())
    {
      ok := sockets.SetPollGroup(handle, group);
      if ok {
        pollGroup := group;
      }
    }

    method Close()
      modifies this, sockets
      ensures sockets.net == CloseConnection(old(sockets.net), handle)
      ensures View() == old(View()).(state := StateClosed)
    {
      sockets.Close(handle);
      state := StateClosed;
    }
  }

  // ---------------------------------------------------------------- ownership under moves

  /** Every object ever constructed, moved-from ones included, and every handle handed out. */
  datatype Pool = Pool(objects: seq<Conn>, used: set<Handle>)

  datatype PoolOp =
    | Construct(h: Handle)
    | MoveConstruct(from: nat)
    | MoveAssign(to: nat, from: nat)
    | Shut(at: nat)

  /** Operations on missing objects, and constructions from a handle already handed out, do nothing. */
  function Applied(p: Pool, op: PoolOp): Pool {
    match op
    case Construct(h) =>
      if h == INVALID || h in p.used then p else Pool(p.objects + [NewConn(h)], p.used + {h})
    case MoveConstruct(i) =>
      if i >= |p.objects| then p
      else p.(objects := p.objects[i := p.objects[i].Invalidated()] + [MovedFrom(p.objects[i])])
    case MoveAssign(i, j) =>
      if i >= |p.objects| || j >= |p.objects| || i == j then p
      else p.(objects :=
                p.objects[i := AssignedFrom(p.objects[i], p.objects[j])][j := p.objects[j].Invalidated()])
    case Shut(i) =>
      if i >= |p.objects| then p else p.(objects := p.objects[i := p.objects[i].(state := StateClosed)])
  }

  function AppliedAll(p: Pool, ops: seq<PoolOp>): Pool
    decreases |ops|
  {
    if ops == [] then p else AppliedAll(Applied(p, ops[0]), ops[1..])
  }

  /** No two valid objects hold the same handle, and only handed-out handles are held. */
  ghost predicate Unique(p: Pool) {
    && (forall i, j :: 0 <= i < j < |p.objects| && p.objects[i].Valid() && p.objects[j].Valid() ==>
          p.objects[i].handle != p.objects[j].handle)
    && (forall i :: 0 <= i < |p.objects| && p.objects[i].Valid() ==> p.objects[i].handle in p.used)
  }

  lemma {:induction false} HandlesStayUnique(p: Pool, ops: seq<PoolOp>)
    requires Unique(p)
    ensures Unique(AppliedAll(p, ops))
    decreases |ops|
  {
    if ops == [] {
    } else {
      HandlesStayUnique(Applied(p, ops[0]), ops[1..]);
    }
  }

  function HeldBy(c: Conn): multiset<Handle> {
    if c.Valid() then multiset{c.handle} else multiset{}
  }

  /** The handles held by the valid objects of `cs`. */
  function Held(cs: seq<Conn>): multiset<Handle> {
    if cs == [] then multiset{} else Held(cs[..|cs| - 1]) + HeldBy(cs[|cs| - 1])
  }

  lemma {:induction false} HeldAfterUpdate(cs: seq<Conn>, i: nat, c: Conn)
    requires i < |cs|
    ensures HeldBy(cs[i]) <= Held(cs)
    ensures Held(cs[i := c]) == Held(cs) - HeldBy(cs[i]) + HeldBy(c)
  {
    var last := |cs| - 1;
    if i == last {
      assert cs[i := c][..last] == cs[..last];
    } else {
      HeldAfterUpdate(cs[..last], i, c);
      assert cs[i := c][..last] == cs[..last][i := c];
      assert cs[i := c][last] == cs[last];
    }
  }

  lemma HeldAfterAppend(cs: seq<Conn>, c: Conn)
    ensures Held(cs + [c]) == Held(cs) + HeldBy(c)
  {
    assert (cs + [c])[..|cs|] == cs;
  }

  /** Move construction conserves the handles held. */
  lemma MoveConstructConserves(p: Pool, i: nat)
    ensures Held(Applied(p, MoveConstruct(i)).objects) == Held(p.objects)
  {
    if i < |p.objects| {
      HeldAfterUpdate(p.objects, i, p.objects[i].Invalidated());
      HeldAfterAppend(p.objects[i := p.objects[i].Invalidated()], MovedFrom(p.objects[i]));
    }
  }

  /**
   Move assignment loses exactly the handle its target held; so it conserves the handles held
   exactly when the target is already invalid or the assignment is to itself.
   */
  lemma MoveAssignConserves(p: Pool, i: nat, j: nat)
    requires i < |p.objects| && j < |p.objects|
    ensures var held := Held(Applied(p, MoveAssign(i, j)).objects);
      && held == Held(p.objects) - (if i == j then multiset{} else HeldBy(p.objects[i]))
      && (held == Held(p.objects) <==> i == j || !p.objects[i].Valid())
  {
    var held := Held(Applied(p, MoveAssign(i, j)).objects);
    if i != j {
      HeldAfterMoveAssign(p.objects, i, j);
      var lost := HeldBy(p.objects[i]);
      HeldAfterUpdate(p.objects, i, p.objects[i]);
      if p.objects[i].Valid() {
        LosingOne(Held(p.objects), p.objects[i].handle);
      } else {
        assert Held(p.objects) - multiset{} == Held(p.objects);
      }
    }
  }

  lemma LosingOne(held: multiset<Handle>, h: Handle)
    requires h in held
    ensures held - multiset{h} != held
  {
    assert (held - multiset{h})[h] == held[h] - 1;
  }

  lemma HeldAfterMoveAssign(cs: seq<Conn>, i: nat, j: nat)
    requires i < |cs| && j < |cs| && i != j
    ensures Held(cs[i := AssignedFrom(cs[i], cs[j])][j := cs[j].Invalidated()]) == Held(cs) - HeldBy(cs[i])
  {
    var a := AssignedFrom(cs[i], cs[j]);
    var mid := cs[i := a];
    HeldAfterUpdate(cs, i, a);
    HeldAfterUpdate(mid, j, cs[j].Invalidated());
    assert HeldBy(a) == HeldBy(cs[j]) == HeldBy(mid[j]);
    var rest, moved := Held(cs) - HeldBy(cs[i]), HeldBy(cs[j]);
    assert rest + moved - moved + multiset{} == rest;
  }

  // ---------------------------------------------------------------- states under moves

  /**
   What a move hands on: handle and state, so the new object may be destroyed exactly when the old one
   might, unless its own handle is valid and it is open; the moved-from object always may be.
   */
  lemma MovesHandOnStates(p: Pool, i: nat)
    requires i < |p.objects|
    ensures var was, objects := p.objects[i], Applied(p, MoveConstruct(i)).objects;
      && |objects| == |p.objects| + 1
      && objects[|p.objects|].handle == was.handle && objects[|p.objects|].state == was.state
      && objects[i].handle == INVALID && objects[i].state == was.state && objects[i].Destructible()
      && (objects[|p.objects|].Destructible() <==> was.handle == INVALID || was.state in {StateClosed, StateNone})
      && forall k :: 0 <= k < |p.objects| && k != i ==> objects[k] == p.objects[k]
  {
  }

  lemma AssignmentsHandOnStates(p: Pool, i: nat, j: nat)
    requires i < |p.objects| && j < |p.objects|
    ensures var was, objects := p.objects[j], Applied(p, MoveAssign(i, j)).objects;
      && |objects| == |p.objects| && objects[i].handle == was.handle && objects[i].state == was.state
      && (i != j ==> objects[j].handle == INVALID && objects[j].state == was.state && objects[j].Destructible())
      && (objects[i].Destructible() <==> was.handle == INVALID || was.state in {StateClosed, StateNone})
      && forall k :: 0 <= k < |p.objects| && k != i && k != j ==> objects[k] == p.objects[k]
  {
  }
}
