/**
 The assertions of the source, and the places where it relies on what it does not check: each is a
 fault of the model exactly when it fails.
 */
module Assertions {
  import opened Transport
  import opened TransportProofs
  import opened InputQueue
  import opened ClientConnections
  import opened ServerModel
  import opened OperationProofs
  import opened Joins

  /** A packet is used although receiving failed, or is from an unregistered connection. */
  lemma DrainFaults(w: World)
    requires w.fault == NoFault
    ensures var received, fault := ReceiveMessageOnPollGroup(w.net, w.group).1, DrainedOne(w).0.fault;
      && (fault == NullPacket <==> received == Failure)
      && (fault == UnregisteredSender <==> received.Got? && received.message.from !in w.connections)
      && (fault == NoFault <==> received == Empty || (received.Got? && received.message.from in w.connections))
  {
  }

  /** A status is outside the table, a lost connection is unregistered or a connecting one registered. */
  lemma HandlerFaults(w: World, e: Event)
    requires w.fault == NoFault && forall h :: h in w.connections ==> w.connections[h].handle == h
    ensures var fault := OnStatusChange(w, e).fault;
      fault ==
        if e.oldStatus == FindingRoute || e.currentStatus == FindingRoute then UnmappedStatus
        else if Lost(e.currentStatus) && e.connection !in w.connections then UnregisteredConnection
        else if e.currentStatus == Connecting && e.connection in w.connections then AlreadyRegistered
        else NoFault
  {
    if e.oldStatus in MAPPED && e.currentStatus in MAPPED {
      HandledAs(w, e);
      if Lost(e.currentStatus) && e.connection in w.connections {
        DroppedFaults(w, e.connection, e.oldStatus);
      } else if e.currentStatus == Connecting && e.connection !in w.connections {
        ConnectingFaults(w, e.connection);
      }
    }
  }

  lemma DroppedFaults(w: World, h: Handle, was: Status)
    requires w.fault == NoFault && h in w.connections
    ensures OnDropped(w, h, was).fault == NoFault
  {
  }

  lemma ConnectingFaults(w: World, h: Handle)
    requires w.fault == NoFault && h !in w.connections
    ensures OnConnecting(w, h).fault == NoFault
  {
  }

  /** An entry is erased that is not there or not closed. */
  lemma RemovalFaults(w: World, h: Handle)
    requires w.fault == NoFault
    ensures var fault := Removed(w, h).fault;
      && (fault == UnregisteredConnection <==> h !in w.connections)
      && (fault == ErasedWhileOpen <==> h in w.connections && w.connections[h].state != StateClosed)
      && (fault == NoFault <==> h in w.connections && w.connections[h].state == StateClosed)
  {
  }

  /** An entry is destroyed that has a valid handle and is neither closed nor unused. */
  lemma ClearingFaults(w: World)
    requires w.fault == NoFault
    ensures Cleared(w).fault == ErasedWhileOpen <==>
      exists h :: h in w.connections && w.connections[h].handle != INVALID
                  && w.connections[h].state in {StateConnecting, StateConnected}
  {
    if h :| h in w.connections && w.connections[h].handle != INVALID
            && w.connections[h].state in {StateConnecting, StateConnected} {
      assert !w.connections[h].Destructible();
    }
  }

  /** A line is read from an empty queue. */
  lemma ReadingFaults(i: Input)
    ensures Read(i).1 == EmptyQueue <==> Produce(i).queue == []
  {
  }
}
