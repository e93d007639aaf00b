# Connection lifecycle of the online library's server

A model of the server side of this C++ library (`Server`, `ClientConnection`, `InputController`) with
the status handler of its example server, and proofs about it. The server keeps a registry of client
connections that has to agree with a networking library underneath it, on every schedule of clients
connecting, being accepted or refused, joining the poll group or failing to, sending, dropping, and of
the server being updated, told to quit, closed, opened and destroyed.

The source states its obligations as assertions and leaves out the branches it believes impossible.
None of them can be seen to hold in one function; all of them follow here from one invariant of server
and transport that every operation keeps.

## How it is built

| file | contents |
|---|---|
| `Transport.dfy` | the networking library: its state `Net`, its contract as functions, and the object `Sockets`. The environment's decisions (moves of the outside world, which calls fail, which event is reported next and when reporting stops) are a script consumed by every call whose outcome it decides, so a statement about every `Net` is one about every schedule |
| `InputController.dfy` | the console queue, with a producer that may run before each locked call |
| `ClientConnection.dfy` | the connection object, its moves and its destructor |
| `ServerModel.dfy` | every server operation and the example handler as a function on the whole state; a failing assertion is a `Fault` |
| `Server.dfy` | the server and the handler as the source has them, updating fields, registry and library in place, each method proved equal to its function |
| `ExampleServer.dfy` | the example program |
| `Invariant.dfy`, `TransportProofs.dfy`, `ServerProofs.dfy`, `OperationProofs.dfy`, `Runs.dfy` | the invariants, and that every operation and so every run keeps them |
| `Theorems.dfy`, `ConsoleTheorems.dfy`, `Latency.dfy` | what follows for every run |
| `Contract.dfy`, `Assertions.dfy` | what every call of the library does and when it succeeds; exactly when each assertion of the source fails |
| `Joins.dfy` | which clients join, that refused ones never do, and what the others are told |
| `Reports.dfy` | dispatching handles everything the library reports |
| `Openings.dfy`, `StrayReleases.dfy`, `StaleEvents.dfy` | the exact conditions under which the code falls short of its intent |
| `SampleRuns.dfy`, `OpeningRuns.dfy` | concrete runs in which it does |

A run is any sequence of calls and of single rounds of an update, so the states between two callbacks
are covered. Two invariants are kept. One holds in every run. The other concerns what opening a
running server destroys: in runs that do not do that (`Lawful`), a stopped server has no clients, all
clients are in the server's poll group, and the sockets and poll groups of successful openings are
released exactly once. `Openings` says what happens to each of the three when a running server is
opened. It also says, for every run, when everything that was ever created is released, the handles of
openings that half failed included; not opening a running server is not enough for that.

## The transport's contract

- A connection is announced once, by a connecting event with a handle not seen before.
- Accepting succeeds only on a connecting connection and connects it; joining a poll group only on a
  connection that is not closed and a live group. Both may fail.
- Messages arrive only on connected connections, in one queue; receiving on a live poll group returns
  the oldest message of a member, or none, and fails on any other group.
- A connection may drop while connecting or connected, which adds a status event.
- Closing a connection takes it out of its poll group, drops its waiting messages and withdraws its
  unreported events; afterwards only events with status NONE can be reported for it.
- No event carries the status FINDING_ROUTE, which the server's status table lacks
  (Include/Server/Server.h:86-95); the claim that no status is unmapped rests on this.
- Creating a socket or a poll group returns a fresh id or the invalid one.

The handler's existence assertion depends on the withdrawal of events: `StaleEvents` gives a run in
which it fails without.

## Where the code is narrower than its intent

- A negative receive result falls through to the null packet (Source/Server/Server.cpp:228-233). The
  branch is never taken while the server runs, because a running server has a live poll group.
- The handler asserts that a dropped connection is registered
  (Examples/ExampleServer/ExampleServer.cpp:45-46); that holds exactly under the contract above.
- A half-failed open leaves a socket or a poll group that the destructor does not release
  (Source/Server/Server.cpp:48-53): `HalfOpeningLeaks` says exactly when, and `OpeningRuns` has a run.
  Closing the server releases it, provided that no other opening came in between.
- Opening a server at a good address overwrites its socket and its poll group
  (Source/Server/Server.cpp:179-187). What it had, from an opening that succeeded or half failed, is not
  released afterwards by anything, so trying again after a half-failed opening leaks even though the
  server never ran: `ASecondAttemptLeaks`. Closing a server releases everything exactly when nothing was
  live at any opening at a good address: `EverythingIsReleased`.
- Opening a running server at a bad address only stops it, and closing it still releases its handles:
  `ReopeningForgetsHandles`. If an opening of a running server succeeds, the old clients stay registered
  and are not heard any more: `ReopeningSilencesClients`. If it fails, they are left in a stopped server,
  whose destruction fails the connection's own assertion: `FailedReopeningStrandsClients` says exactly
  when, and `OpeningRuns` has a run.
- The socket and poll group have no initialiser (Include/Server/Server.h:111-112), so closing a server
  that was never opened at a good address releases whatever handles its memory contains:
  `StrayReleasesExactlyWhenClosedFirst`, with a run in `ClosingAFreshServerStrays`.
- Packet sizes are narrowed to 32 bits when sent (Source/Server/Server.cpp:94-98); `Submitted` keeps the
  first size modulo 2^32 bytes, and the statement about broadcasts is about what is submitted.

## Model

| member | source | states |
|---|---|---|
| Theorems.RostersReplay | Examples/ExampleServer/ExampleServer.cpp:42-94 | Roster replay. In every state any run of a fresh server reaches, the packets submitted to a registered client start with its own welcome and, replayed from there (join adds, leave removes), name exactly the clients that joined after it and are registered, or that the application closed on its own |
| Theorems.RostersAreExact | Examples/ExampleServer/ExampleServer.cpp:42-94 | Where the application closes no client on its own, that is exactly the registered clients that joined after it |
| Theorems.OnlyJoinedClientsAreNamed | Examples/ExampleServer/ExampleServer.cpp:71-92 | Nobody, registered or not, is ever sent anything without having joined, nor a join or leave notice about a client that did not join; clients that joined were accepted, and registered clients joined |
| Joins.ConnectingJoins | Examples/ExampleServer/ExampleServer.cpp:61-94 | A connecting client is registered and counts as joined if and only if its accept and its poll-group join both succeed; otherwise nobody is sent anything |
| Joins.JoinsAreAnnounced | Examples/ExampleServer/ExampleServer.cpp:85-92 | A client that joins is sent one reliable welcome, every other registered client one reliable notice that it joined, and nobody else anything |
| Joins.DropsAreAnnounced | Examples/ExampleServer/ExampleServer.cpp:42-60 | A lost client is closed and erased; if it had been connected every other registered client is sent one reliable notice that it left, and otherwise nobody is sent anything |
| Joins.EntriesAreCreatedOnce | Source/Server/Server.cpp:63-67 | Creating an entry leaves every existing entry as it is, one under the same handle included; a new one holds its handle and is connecting |
| Joins.RefusedClientsStayOut | Examples/ExampleServer/ExampleServer.cpp:71-83 | A client that connected and did not join in some run never joins or is registered in any continuation of it, and no notice ever names it |
| Theorems.RegistryAgreesWithTransport | Examples/ExampleServer/ExampleServer.cpp:61-94 | In every state of every run, also between two callbacks of one update, the registry keys are the connections accepted and not yet closed, and are the members of poll groups; every entry is connected, filed under its own handle and records its group; a running server has a live socket and a live poll group |
| Theorems.MembersAreInTheServersGroup | Examples/ExampleServer/ExampleServer.cpp:78-83 | As long as no running server was opened again, the members of the server's current poll group are exactly the registered clients |
| Theorems.NoAssertionFails | Source/Server/ClientConnection.cpp:65-71 | No run fails any assertion of the source, uses a null packet, reads an empty queue or meets an unmapped status; destroying the server afterwards destroys no open connection object if and only if the server is running or has no clients, and never does once it was closed |
| Assertions.DrainFaults | Source/Server/Server.cpp:218-244 | A drain round uses a null packet if and only if receiving failed, fails the registration assertion if and only if the sender is unregistered, and is clean otherwise |
| Assertions.HandlerFaults | Examples/ExampleServer/ExampleServer.cpp:40-102 | The handler fails on a status outside the table, on a lost connection that is unregistered and on a connecting one that is registered, and on nothing else |
| Assertions.RemovalFaults | Source/Server/Server.cpp:76-83 | Removing an entry fails if and only if it is not there or not closed |
| Assertions.ClearingFaults | Source/Server/Server.cpp:308 | Clearing the registry fails if and only if an entry has a valid handle and is connecting or connected |
| Assertions.ReadingFaults | Source/Common/InputController.cpp:72-78 | A read finds no line if and only if the queue is empty once the producer has had its turn |
| Theorems.StoppedServersAreEmpty | Source/Server/Server.cpp:48-56 | As long as no running server was opened again, a stopped server has no clients, so destroying the server never destroys an open connection object |
| Theorems.StreamsAreIntact | Source/Server/Server.cpp:209-244 | Stream integrity, in every state of every run. For each registered connection, what the packet callback got from it followed by what still waits is, in order, what arrived from it; for a connection that is gone, what the callback got is a prefix of what arrived |
| Theorems.PacketsAreOwned | Source/Server/Server.cpp:239-244 | After any run, each round of the drain hands over a packet of a connection registered at that moment or none, and a whole update, whatever arrives, connects or drops during it, only packets of connections registered when it began; nothing handed over is taken back |
| Theorems.ConnectionsAreClosedOnce | Source/Server/Server.cpp:69-83 | In every state of every run a connection was closed exactly once if it was created and is no longer registered, and never otherwise; after closing the server every created connection was closed exactly once |
| Theorems.NothingIsReleasedTwice | Source/Server/Server.cpp:310-314 | In no run is a socket or a poll group that was created released twice |
| StrayReleases.StrayReleasesExactlyWhenClosedFirst | Source/Server/Server.cpp:310-314 | Over any run no handle is released that the library did not give out, the invalid one aside, if and only if the server's uninitialised handle was invalid or the server was opened at a good address before its first closing |
| StrayReleases.HandlesAreKnown | Include/Server/Server.h:111-112 | After any run a handle of the server is invalid or one the library gave out if and only if it was invalid at first or the server was opened at a good address or closed |
| StrayReleases.ClosingAFreshServerStrays | Source/Server/Server.cpp:310-314 | A concrete run: closing a fresh server whose handles happen to be 7 releases socket 7 and poll group 7 |
| StrayReleases.DestructionReleasesOwnHandles | Source/Server/Server.cpp:48-56 | Destruction releases no handle that the library did not give out |
| Theorems.ReleasedExactlyOnce | Source/Server/Server.cpp:298-315 | Shut down by closing, by destruction or by both, after any run in which no running server was opened again: every connection ever created was closed exactly once, and every socket and poll group of a successful open was released exactly once |
| Theorems.RunningHolds | Source/Server/Server.cpp:298-315 | At every moment of such a run, of the sockets and groups of successful opens all but the running server's current ones have been released, once |
| Theorems.BroadcastReachesEachOnce | Source/Server/Server.cpp:124-145 | After any run a broadcast submits exactly one copy, as the library takes it, to every registered client but the excluded one, at the end of that client's log, and nothing to anyone else |
| Theorems.BroadcastSubmitsTheBytes | Source/Server/Server.cpp:124-145 | A broadcast of bytes appends to the log of every registered client but the excluded one one entry with those bytes and that send type, and to no other log anything; of 2^32 bytes or more it carries the first n, where n is their number modulo 2^32 |
| Theorems.BroadcastSkipsUnconnected | Source/Server/Server.cpp:129-144 | In any state, reached or not, a broadcast gives its bytes once to every entry that is connected and not excluded, and nothing to an entry that is not connected |
| Theorems.SendSubmitsTheBytes | Source/Server/Server.cpp:85-117 | The same for a send to one registered client, whose log alone grows |
| Theorems.SettingsTakeEffect | Include/Server/Server.h:56-57 | The packet limit and the packet callback are what they are set to, and setting them changes nothing else |
| Openings.ReopeningForgetsHandles | Source/Server/Server.cpp:166-195 | Where no running server was opened before: after an opening, destroying the server releases every handle of a successful opening if and only if it was not running when opened, and closing it does if and only if it was not running or the address was bad; handles of half-failed openings are not meant |
| Openings.OpeningIsSafeExactlyWhenNothingIsLive | Source/Server/Server.cpp:166-195 | After an opening in any state, closing the server releases every connection, socket and poll group ever created if and only if nothing was live before, or the address was bad and only the server's own handles were; destroying it does if and only if nothing was live, the creations did not half fail, and no clients are left in a stopped server |
| Openings.EverythingIsReleased | Source/Server/Server.cpp:298-315 | Closing the server after any run releases everything it ever created, once, if and only if nothing was live at any opening of the run at a good address |
| Openings.FailedReopeningStrandsClients | Source/Server/Server.cpp:166-195 | After an opening, destroying the server destroys unclosed connection objects if and only if it had clients and the address is bad or one of the two creations fails |
| Openings.ReopeningSilencesClients | Source/Server/Server.cpp:187-192 | A successful opening of a server keeps its old clients registered, but none of them is in the new poll group and a drain hands over nothing of theirs; all clients are in the server's group afterwards if and only if there were none |
| Openings.HalfOpeningLeaks | Source/Server/Server.cpp:48-56 | Opening and then destroying a server, in any state, leaves nothing live if and only if nothing was live before and the address was bad or the two creations both succeed or both fail |
| Openings.ClosingAfterOpeningReleases | Source/Server/Server.cpp:298-315 | Opening and then closing a server, in any state and however the opening goes, leaves nothing live if and only if nothing was live before or the address was bad and only the server's own handles were |
| OpeningRuns.AHalfOpeningLeaks | Source/Server/Server.cpp:179-192 | A concrete run of one call whose second creation fails, after which destroying the server leaves its socket open |
| OpeningRuns.ASecondAttemptLeaks | Source/Server/Server.cpp:179-192 | A concrete run that opens a stopped server twice, the first time half failing: the first socket is not released even by closing, although every handle of the successful opening is |
| OpeningRuns.AFailedReopeningStrandsItsClient | Source/Server/Server.cpp:166-195 | A concrete run (open, connect, accept, join, an opening that fails) after which destroying the server fails the connection's assertion |
| StaleEvents.SafeExactlyWhenWithdrawn | Examples/ExampleServer/ExampleServer.cpp:45-76 | A client that drops before it is accepted is refused and forgotten without a fault; what is then still to be reported about it passes the handler's existence assertion if and only if the library withdraws the events of a connection it is told to close |
| StaleEvents.TheScheduleFaults | Examples/ExampleServer/ExampleServer.cpp:45-46 | A concrete run (open, connect, drop before the accept, report the drop) that is lawful and ends in that failed assertion if and only if the library does not withdraw events |
| Latency.DeliveredWithin | Source/Server/Server.cpp:197-237 | With a packet callback, a limit m > 0 and all clients in the server's poll group, the packet at queue position p had not been handed over and, after any calls among which are p / m updates, has been after one more update, whatever arrives, connects or drops meanwhile and whatever is sent or closed between the updates, unless its connection is no longer registered or quit was requested before that update |
| Latency.DeliveredIncreases | Source/Server/Server.cpp:209-244 | Packets of one connection are handed over in the order of arrival and none of them twice |
| Latency.WaitingIsNew | Source/Server/Server.cpp:209-244 | No waiting packet has been handed over yet, and its connection is not closed |
| Latency.DrainIsExact | Source/Server/Server.cpp:209-237 | With all clients in the server's poll group a drain hands over exactly the oldest waiting packets, in order, arrivals during the drain included: as many as the limit, or all; so min(m, queue length) when nothing arrives |
| Latency.NothingIsHandedOverWithoutCallback | Source/Server/Server.cpp:211-214 | After any run without a packet callback, an update asks the library for no packet and hands over none; every waiting packet whose connection stays registered goes on waiting |
| Latency.ArrivalsAreHandedOver | Source/Server/Server.cpp:216-244 | Bytes that arrive at an open connection while an idle server receives are the next to be handed over, as they came |
| Latency.UpdateAdvances | Source/Server/Server.cpp:197-237 | The packet at position p, not handed over before, is handed over by one update if p < m, and otherwise is handed over or waits at position p - m or before, even when dispatched events close other connections; unless its own connection is gone |
| ConsoleTheorems.LinesAreReadUpToQuit | Source/Server/Server.cpp:282-296 | Over every run the lines read are a prefix of the whole input in which only the last can be "/quit"; quit is requested if and only if that line was read or the server was closed; lines read followed by lines queued are the lines added |
| ConsoleTheorems.UpdatesReadWhatIsThere | Source/Server/Server.cpp:282-296 | An update that takes place and does not end in quit leaves no available line unread |
| ConsoleTheorems.QuitIsObeyed | Source/Server/Server.cpp:282-296 | After as many updates as the producer has batches left, and at least one, a running server is told to quit if and only if "/quit" is among its unread lines |
| ConsoleTheorems.OtherLinesAreRead | Source/Server/Server.cpp:282-296 | If none of its unread lines is "/quit", after as many updates a running server has read them all and is not told to quit |
| ConsoleTheorems.RoundsReadOneLine | Source/Server/Server.cpp:284-294 | A round of the input loop takes one line, if one is available, and requests quit if and only if it is "/quit" |
| ConsoleTheorems.StoppedServersDoNotListen | Source/Server/Server.cpp:199-202 | However often it is updated, a server that is not running never reads a line |
| ConsoleTheorems.QuitIsAbsorbing | Source/Server/Server.cpp:197-207 | Once quit is requested, no sequence of calls, opening included, withdraws it, reads a line, hands over a packet, registers, creates or announces a client, or removes one from the registry except by a call that closes clients |
| ConsoleTheorems.UpdateAfterQuit | Source/Server/Server.cpp:199-202 | After quit was requested, and whatever was called since, an update changes nothing at all |
| ClientConnections.HandlesStayUnique | Source/Server/ClientConnection.cpp:29-63 | Over any sequence of constructions from fresh handles, move constructions, move assignments (to oneself too) and closes, no two valid objects hold the same handle |
| ClientConnections.MoveConstructConserves | Source/Server/ClientConnection.cpp:36-43 | Move construction conserves the multiset of handles held by valid objects, wherever the source object is |
| ClientConnections.MovesHandOnStates | Source/Server/ClientConnection.cpp:36-43 | The moved-to object has the old handle and state, so a closed one may be destroyed and a valid connected one may not; the moved-from object is invalid and may always be; no other object changes |
| ClientConnections.MoveAssignConserves | Source/Server/ClientConnection.cpp:50-63 | Move assignment loses exactly the handle its target held; it conserves the handles held if and only if it is a self-assignment or its target was already invalid |
| ClientConnections.AssignmentsHandOnStates | Source/Server/ClientConnection.cpp:50-63 | The same for move assignment; a self-assignment changes nothing |
| ClientConnections.Conn.Destructible | Source/Server/ClientConnection.cpp:65-71 | An object may be destroyed if and only if its handle is invalid or its state is closed or none |
| InputQueue.ReadAfterCheck | Source/Common/InputController.cpp:66-78 | With the producer free to add lines between the two locked calls, a read after a successful check never finds the queue empty and takes the next line of the whole input |
| InputQueue.CheckConserves | Source/Common/InputController.cpp:66-70 | A check loses and reorders nothing, whatever is added first, and says exactly whether a line is waiting |
| InputQueue.ProduceConserves | Source/Common/InputController.cpp:55-59 | A producer step moves lines of the input to the back of the queue and does nothing else |
| InputQueue.AddAllAppends | Source/Common/InputController.cpp:55-59 | Adding lines one by one appends them in order |
| Runs.RunKeeps | Source/Server/Server.cpp:166-315 | The invariant of server and transport holds after every run: any calls, a running server opened again included, any environment, and any interleaving of the two |
| Runs.ActionKeeps | Source/Server/Server.cpp:63-315 | Every call, a broadcast, a send to one client and the closing of one client included, and every single round of an update keeps the invariant |
| Runs.LawfulRunKeeps | Source/Server/Server.cpp:166-315 | If no running server is opened again, a stopped server moreover has no clients, all clients are in the server's poll group, and every handle of a successful opening that is not in use has been released once |
| Runs.UpdateStages | Source/Server/Server.cpp:197-207 | An update that is not skipped goes through all three stages, each of which keeps the invariant: draining leaves the registry and the flags alone, dispatching hands over no packet and reads no line, reading touches only input and quit |
| Invariant.InitialKeeps | Source/Server/Server.cpp:38-46 | A fresh server, whatever its uninitialised socket and poll group contain, meets both invariants |
| OperationProofs.DispatchedOneKeeps | Examples/ExampleServer/ExampleServer.cpp:36-103 | Handler soundness. Every reported drop finds its connection registered, every reported connecting client is unregistered, both statuses are in the table, and handling the event keeps the invariant |
| Reports.EverythingReportedIsHandled | Source/Server/Server.cpp:246-270 | In every state of every run dispatching handles the events the library reports, one after the other, and ends only when it has nothing more to report |
| Reports.OneUpdateLetsBothIn | Source/Server/Server.cpp:197-207 | A concrete run: two clients connect at once, and one update registers both |
| OperationProofs.DrainedOneKeeps | Source/Server/Server.cpp:216-236 | A round of the drain takes out the oldest message of a member of the server's poll group, if any, whose sender is registered; the receive call does not fail and the invariant is kept |
| OperationProofs.DrainedHandsOver | Source/Server/Server.cpp:209-237 | With all clients in the server's poll group, packets handed over by a drain followed by those still waiting are those that waited followed by those that arrived during it; it stops early only when nothing waits |
| OperationProofs.ReadAllKeeps | Source/Server/Server.cpp:282-296 | The input loop ends, keeps the invariant and touches only the input and the quit flag; it takes a batch if one is left, and without a quit it leaves the queue empty |
| OperationProofs.ReadAllHears | Source/Server/Server.cpp:282-296 | From any state the input loop reads lines in order and loses none, up to "/quit" or until none is queued; it changes the quit flag exactly when it read "/quit", and nothing but input and flag |
| OperationProofs.OpenedKeeps | Source/Server/Server.cpp:166-195 | Opening keeps the invariant, running or not, whichever of the creations fail |
| OperationProofs.OpenedTidy | Source/Server/Server.cpp:166-195 | Opening a stopped server, whichever creations fail, keeps the order of clients, poll group and handles of successful openings; it says nothing of handles of half-failed ones |
| OperationProofs.ClosedServerKeeps | Source/Server/Server.cpp:298-315 | Closing keeps the invariant from every state, running or not, and leaves a stopped server without clients and told to quit; where all handles of successful openings but the current ones were released before, all of them are |
| OperationProofs.DestroyedKeeps | Source/Server/Server.cpp:48-56 | Destruction closes a running server; of a stopped one it destroys the entries, which fails their assertion if and only if there are any |
| ServerProofs.DroppedKeeps | Examples/ExampleServer/ExampleServer.cpp:42-60 | Handling a drop removes exactly the dropped client from the registry and keeps every roster, stream and ledger right |
| ServerProofs.ConnectingKeeps | Examples/ExampleServer/ExampleServer.cpp:61-94 | Handling a connecting client touches no other entry and keeps the invariant whether the accept fails, the join fails or both succeed |
| ServerProofs.OnConnectingIs | Examples/ExampleServer/ExampleServer.cpp:61-94 | Step by step, the connecting branch amounts to this: the client is admitted as a connected, grouped entry with a welcome for it and a join notice for every other client, or it is closed and nothing is kept of it but the record that it was created and closed |
| ServerProofs.BroadcastKeeps | Source/Server/Server.cpp:124-145 | Broadcasting any bytes keeps the invariant, rosters included |
| ServerProofs.SendKeeps | Source/Server/Server.cpp:85-117 | Sending any bytes to one registered client keeps the invariant, rosters included |
| ServerProofs.ExpelledKeeps | Source/Server/Server.cpp:69-74 | Closing one registered client on the application's own account removes exactly it; the others' rosters go on naming it |
| TransportProofs.YieldKeeps | Source/Server/Server.cpp:246-255 | Whatever the environment does at a call, the transport's own property survives and the set of accepted, unclosed connections is unchanged |
| TransportProofs.NextCallbackKeeps | Source/Server/Server.cpp:246-255 | Every event the library reports is one the handler can meet: a connecting one before its connection was accepted, a drop of an accepted connection only after it connected, none with the missing status |
| TransportProofs.ReceiveKeeps | Source/Server/Server.cpp:218-226 | Receiving on a live poll group never fails; it returns the oldest waiting packet of a member, which is an accepted, unclosed connection, or nothing when no member has one |
| TransportProofs.CloseAllKeeps | Source/Server/ClientConnection.cpp:93-97 | Closing open connections keeps the transport's property (one close for each closed connection, none of its messages waiting, no event of it but with status NONE) and the set of accepted, unclosed connections loses exactly them |
| Contract.Announcing | Source/Server/Server.cpp:252-270 | A connection is announced once, with a connecting event, under a valid handle not seen before |
| Contract.Arriving | Source/Server/Server.cpp:220-224 | Bytes arrive on connected connections only and queue behind everything that arrived before |
| Contract.Dropping | Examples/ExampleServer/ExampleServer.cpp:42-50 | A connecting or connected connection may be lost in either way, and an event with its old status is queued |
| Contract.Noticing | Examples/ExampleServer/ExampleServer.cpp:99-101 | Of a closed connection only events with status NONE are added |
| Contract.Creating | Source/Server/Server.cpp:179-187 | A creation succeeds if and only if the environment lets it and offers a valid id not created before |
| Contract.Accepting | Source/Server/ClientConnection.cpp:73-81 | Accepting succeeds if and only if the environment lets it and the connection is connecting; it connects it and queues the connected event, and else changes nothing |
| Contract.Joining | Source/Server/ClientConnection.cpp:83-91 | Joining succeeds if and only if the environment lets it, the connection is not closed and the group is live |
| Contract.Receiving | Source/Server/Server.cpp:220-231 | Receiving fails if and only if the group is not live, and otherwise returns a packet if and only if a member has one waiting |
| Contract.Reporting | Source/Server/Server.cpp:246-255 | What is reported is the oldest unreported event of the connection the environment picks, and nothing when it has none |
| Contract.Closing | Source/Server/ClientConnection.cpp:93-97 | Closing is counted, ends membership, drops the connection's waiting packets and withdraws its events where the library does |
| Servers.Server.constructor | Source/Server/Server.cpp:38-46 | A fresh server has an empty registry, both flags down and a limit of five packets |
| Servers.Server.CreateClientConnection | Source/Server/Server.cpp:63-67 | Enters a fresh connecting object under its handle, keeps an existing one, and returns the entry |
| Servers.Server.RemoveClientConnection | Source/Server/Server.cpp:76-83 | Erases a closed entry, whose destructor is satisfied, and no other |
| Servers.Server.CloseClientConnection | Source/Server/Server.cpp:69-74 | Closes the entry's connection and erases the entry |
| Servers.Server.SendPacketToAllConnectedClientsImpl | Source/Server/Server.cpp:124-145 | For any iteration order of the registry the loop submits one copy to each connected entry but the excluded one and changes nothing else; a packet of fewer than 2^32 bytes is submitted as it is |
| Servers.Server.ProcessPendingPackets | Source/Server/Server.cpp:209-237 | The bounded loop, with its early exit, does to the state what the drain does as a function, provided no receive call it makes fails or finds an unregistered sender, which the invariant gives; without a packet callback it touches neither the library nor what was handed over |
| Servers.Server.ProcessConnectionStateChanges | Source/Server/Server.cpp:246-255 | Dispatching ends and does what handling the reported events one after the other does, provided each event meets the handler's assertions, which the invariant gives |
| Servers.InvIsDrainable | Source/Server/Server.cpp:216-241 | On every state that meets the invariant, no round of a drain fails to receive or finds an unregistered sender |
| Servers.InvIsDispatchable | Examples/ExampleServer/ExampleServer.cpp:45-63 | On every state that meets the invariant, every event reported from there on meets the handler's assertions |
| Servers.Server.OnSteamNetConnectionStatusChanged | Source/Server/Server.cpp:257-270 | Passes one event with mapped statuses to the handler |
| Servers.Server.ProcessUserInput | Source/Server/Server.cpp:282-296 | The check-then-read loop ends on the measure of unread lines; it reads in order up to "/quit" or until none is queued, and requests quit if and only if it read that line |
| Servers.Server.UpdateConnection | Source/Server/Server.cpp:197-207 | On every state that meets the invariant, the objects, flags, library and queue end up as the update function says, so all theorems about runs hold of the object; entries are only ever new objects or old ones |
| Servers.Server.OpenConnection | Source/Server/Server.cpp:166-195 | Creates the socket and then the poll group; running exactly when the address is good and both were created |
| Servers.Server.CloseConnection | Source/Server/Server.cpp:298-315 | For any iteration order closes every entry, clears the registry and releases socket and poll group |
| Servers.Server.Destroy | Source/Server/Server.cpp:48-56 | Closes a server that is still running, and leaves a stopped one, which must have no clients, as it is |
| Servers.ConnectionStatusChangeCallback | Examples/ExampleServer/ExampleServer.cpp:36-103 | The example handler, with both of its assertions, as an operation on the server object |
| Servers.HandleConnecting | Examples/ExampleServer/ExampleServer.cpp:61-94 | Creates, accepts, groups and announces the entry, or closes it after a failed accept or a failed join |
| Servers.HandleDropped | Examples/ExampleServer/ExampleServer.cpp:42-60 | Tells the others if the client had been connected, then closes and erases its entry |
| ExampleServers.Serve | Examples/ExampleServer/ExampleServer.cpp:105-131 | The example program, on every input on which it ends: what it does to a fresh server is the lawful run open, update ..., close, so every theorem above holds of its final state, in which the registry is empty; it stops because quit was requested, after no more updates than the input has batches |
| ExampleServers.ServeFor | Examples/ExampleServer/ExampleServer.cpp:105-131 | The same for the first so many rounds of the program on any input, closed afterwards; where the program does not end they are all made |
| ExampleServers.ProgramEnds | Examples/ExampleServer/ExampleServer.cpp:121-126 | The program's loop can end only if the opening succeeds and the input has the quit command, and then it has ended after as many updates as the input has batches |
| ExampleServers.RunFurther | Examples/ExampleServer/ExampleServer.cpp:121-126 | A run followed by one more call is a run, and a lawful one if the first part and the call are |
| ClientConnections.ClientConnection.constructor | Source/Server/ClientConnection.cpp:29-34 | A new object holds its handle in the connecting state |
| ClientConnections.ClientConnection.Move | Source/Server/ClientConnection.cpp:36-43 | Takes the old handle and the old state, leaves the recorded poll group behind, and invalidates the source, whose state stays |
| ClientConnections.ClientConnection.MoveAssign | Source/Server/ClientConnection.cpp:50-63 | Takes the old handle and the old state and invalidates the source; a self-assignment changes nothing |
| ClientConnections.ClientConnection.Accept | Source/Server/ClientConnection.cpp:73-81 | Connected exactly when the library accepts; nothing else changes |
| ClientConnections.ClientConnection.SetPollGroup | Source/Server/ClientConnection.cpp:83-91 | Records the group exactly when the library joins the connection to it |
| ClientConnections.ClientConnection.Close | Source/Server/ClientConnection.cpp:93-97 | Closes the connection in the library and marks the object closed |
| InputQueue.InputController.AddInput | Source/Common/InputController.cpp:55-59 | Appends one line |
| InputQueue.InputController.InputAvailable | Source/Common/InputController.cpp:66-70 | Says whether a line is waiting once the producer has had its turn |
| InputQueue.InputController.ReadInput | Source/Common/InputController.cpp:72-78 | Takes the oldest line; the caller must know the queue is not empty |

## Left out

- GameNetworkingSockets, address parsing and real sockets: only the contract above; whether the address parses is a parameter of opening.
- `Client`: a wrapper around one connection without a registry.
- `NetworkingUtils`, logging, message formatting and random aliases: welcome, join and leave packets name the client by its handle.
- `pollInput`: the threads and futures are one producer that adds any lines at any time. The shadowed future (Source/Common/InputController.cpp:50) leaves the outer one without state once the first line was taken: the inner one's destructor waits for a second line and drops it, and the next wait is undefined behaviour, which the model does not have.
- `InputController` teardown: the destructor leaves `poll_input_thread` joinable (Source/Common/InputController.cpp:61-64), which ends the process.
- `Packet` copying and releasing of messages: payloads are immutable byte sequences.
- A missing status callback, which ends the process (Source/Server/Server.cpp:259-263): the example's handler is always set.
- Network delivery of sends: only what the server submits is recorded, in one log per receiver. The order of sends to different receivers, and of closes of different connections within one shutdown, is not recorded.
- Calls of `openConnection`, `updateConnection` or `closeConnection` from inside a callback.
- `ensureClientConnectionExists`: nothing calls it.
- Application calls of `createClientConnection` and `removeClientConnection` other than the handler's: an entry created for no announced connection, or removed without being closed, is against the assertions the handler relies on. Sends to one client and the closing of one client are part of runs; naming an unregistered client throws and changes nothing.
- The environment moves at accepting, joining, receiving, reporting and creating, not at sends and closes, and its status events are one queue per connection of which any may be reported next. That allows every order that one queue for all connections does.
- Servers.Server.ProcessPendingPackets: does not model that the signed round counter overflows when the limit exceeds 2^31 - 1.
- ClientConnections.ClientConnection.Move: the recorded poll group of the new object is uninitialised in the source and is the invalid group here; nothing reads it before it is set.
- ExampleServers.ServeFor: takes a bound on its updates, because the source's loop does not end when the opening fails or the quit command is never typed; `Serve` has no bound and covers exactly the inputs on which it ends.
- Servers.Server.ProcessConnectionStateChanges: the script of environment decisions is finite, so one call reports finitely many events.
