# wshub: a verified model of its concurrent bookkeeping

wshub is an in-process WebSocket connection hub written in Go. Clients register with a hub, join
rooms, and receive broadcasts through bounded send queues; several hubs form a cluster over a Redis or
NATS adapter. Its difficulty is bookkeeping under concurrency: maps, atomics, mutexes, bounded channels
and once-guards that must agree whatever the interleaving. This project models that bookkeeping and
proves what it keeps.

`dafny verify dfyconfig.toml` checks everything.

## How it is modelled

Code that runs on its own (loops over snapshots, the write pump, the rate limiter, the reaper, the
presence cache, the registry methods, the locked sections of the adapters) is a class with methods,
each proved against a specification function. Code that interleaves is a state machine: every call ever
made has an entry in a sequence with a program counter and its local variables, every object ever
allocated (room objects, subscriptions, contexts, batches) has an entry in another, and one step is one
access to shared state or one locked section. Theorems are about every state of every finite run, with
any number of calls.

| files | component |
|---|---|
| `RegistryModel`, `RegistryRuns`, `RegistryAnswers`, `Registry` | the registry, one method at a time: representation invariant, limits, pairs of operations, and what each answer means |
| `RoomProtocol`, `RoomSafety`, `RoomRuns`, `RoomProgress`, `RoomLinks`, `RoomStranded` | join, leave, sweep and room deletion interleaved lock by lock, with the presence publisher gathering meanwhile: safety, progress, and where a join ends up |
| `RoomAlone`, `RoomSweep`, `PresencePass` | what joins, leaves and sweeps come to when nothing interferes, and what a pass of the presence publisher reports when everything does |
| `UserIndex`, `UserIndexRuns` | the user index lock by lock: registration and unregistration in their separate steps, with SetUserID from any goroutine |
| `SendBuffer`, `SendProtocol`, `SendConservation` | the bounded send queue: sequential drop policies, and all senders, writer and unregister drain interleaved |
| `Coalescing`, `PumpRuns`, `EndToEnd` | the write pump, its coalescer and a receiver, and the way from a send to the receiver |
| `DrainProtocol`, `IdleReaper` | draining, shutdown, and the reaper of idle clients |
| `NatsAdapter`, `NatsOwnership`, `NatsInstall`, `RedisAdapter`, `RedisSlots`, `RedisLast` | the adapter lifecycles: ownership and slots, and which subscription an adapter ends up with |
| `FanOut`, `FanOutOnce`, `FanOutProgress` | parallel broadcasts over the worker pool |
| `PresenceTotals`, `Relay`, `RelayOnce`, `Audiences` | the presence cache and cluster-wide counts, the cluster relay, and whom a broadcast is for in terms of the registry |
| `TokenBucket` | the message rate limiter |
| `Options`, `Messages`, `Totals` | the optional value, the queued message, and sums over sequences used to compare counters with what they count |

## What the proofs found

- A join can succeed in a room the hub has forgotten. `JoinRoom` releases `roomsMu` before it takes
  `room.mu` (hub.go:1871-1875); if the last member leaves in between, the room object is deleted from
  `h.rooms` and the join still succeeds in it. `RoomStranded.JoinedRoomCanBeUnlinked` is such a run.
  `RoomLinks.JoinedRoomIsLinkedExactlyWhenNotDeleted` says exactly when it happens: if and only if some
  call deletes the room between the lookup and the lock. `RoomLinks.UndisturbedJoinIsLinked` gives the
  condition a caller can see to: a join during which no other call leaves, sweeps or fails to join a room
  of that name ends in a room that `h.rooms` knows.
- `SetUserID` can leave an entry in the user index that outlives its client. Nothing in it checks that the
  client is registered, and registering and unregistering read the user id in one step and update the
  index in another (hub.go:359-394, hub.go:601-607). `UserIndexRuns.EntryOutlivesExactlyWhen` says exactly
  when: a `SetUserID` took effect on a client not registered yet or refused, or after its unregistration
  had read the user id (also while it sweeps the rooms and runs their hooks, with the client still in
  `h.clients`), and left a non-empty user id; or one came between the read and the index update of the
  registration, and the user id has not come back since. `UserIndexRuns.SetUserDuringSweepLeaks` and
  `UserIndexRuns.SetUserDuringRegistrationStrays` are such runs, under any limits, and
  `UserIndexRuns.CalmClientLeavesNothing` gives the rule for callers: change the user id only of a
  registered client that is not being unregistered. For calls that do not overlap a registration or an
  unregistration of the client, `RegistryRuns.SetUserKeepsExactlyWhen` is the condition before the call,
  and `RegistryRuns.LeakStays` says that the leaked entry stays until `SetUserID` is called for that
  client again.
- A text message that contains a newline byte does not survive coalescing, and it is the only thing that
  does not: `Coalescing.RoundTripExactlyWhenClean`, and for whole runs of the pump
  `Coalescing.Pump.WritePump`.

## Assumptions

Go atomics are sequentially consistent, `sync.Once` runs its function once and as one step, and time is a
parameter that the theorems require not to decrease. Token amounts are reals rather than float64, and
counters are unbounded integers. Hooks, callbacks, the logger and the metrics backend are not modelled,
except that the two room metrics and the sent-message metric are counted where a property mentions them.
Calls into the Redis, NATS and WebSocket libraries return an arbitrary outcome.

## Model

| member | source | states |
|---|---|---|
| `RegistryRuns.RunKeepsRegistry` | hub.go:359-437 | after every operation of every run of client creation, register, unregister, set-user, join, leave and leave-all: the id index is a bijection, the counter is the number of clients, user index and room membership are exact in both directions, no entry is empty, and all four limits hold |
| `RegistryRuns.LookupsAreExact` | hub.go:1427-1472 | after any run, a user's connections and a room's members are exactly the registered clients with that user id or listing that room, and the id index finds exactly the registered clients |
| `RegistryRuns.SetUserKeepsExactlyWhen` | hub.go:399-437 | between whole calls: SetUserID, which does not check registration, keeps the invariant if and only if the client is registered or the call does not file it under a user |
| `RegistryRuns.LateSetUserLeaks` | hub.go:399-437 | under any limits a client that connects, disconnects and then gets its user id is named by the user index although it is not registered, and unregistering it again changes nothing |
| `RegistryRuns.LeakStays` | hub.go:399-437 | whatever calls follow, other than a SetUserID for that client or a second registration of it, which the hub never makes, the user index goes on naming it |
| `UserIndexRuns.EntriesAreExact` | hub.go:359-437 | in every interleaving the user index has exactly the entries of a client that its history says: its user id, the one its registration read if a change overtook that, or those left behind |
| `UserIndexRuns.EntryOutlivesExactlyWhen` | hub.go:565-607 | when an entry outlives its client, as an if and only if over the history of changes of its user id |
| `UserIndexRuns.RegisteredExactlyWhen` | hub.go:527-546 | a registered client is filed under exactly its user id if and only if no change overtook its registration, or the user id has come back to the one read |
| `UserIndexRuns.LateExactlyWhen` | hub.go:380-394 | the unregistration's part of that history in terms of the run: the user id differed at the index update from the one read, or a SetUserID has changed it since |
| `UserIndexRuns.StrayedExactlyWhen` | hub.go:359-376 | the registration's part: the user id differed at the index update from the one read, and has not been that in any state since |
| `UserIndexRuns.CalmClientLeavesNothing` | hub.go:359-437 | a client whose user id is changed only while it is registered, before its unregistration reads it, is filed under exactly its user id and leaves no entry behind |
| `UserIndexRuns.SetUserDuringSweepLeaks` | hub.go:602-607 | a run, under any limits, in which SetUserID is called on a client still in h.clients and its entry outlives it |
| `UserIndexRuns.SetUserDuringRegistrationStrays` | hub.go:359-376 | a run, under any limits, after which a registered client is filed under two user ids |
| `UserIndex.RegisterInParts` | hub.go:527-546 | the registration's steps with nothing in between are the whole registration |
| `UserIndex.UnregisterInParts` | hub.go:601-609 | the unregistration's steps with nothing in between are the whole unregistration |
| `RegistryRuns.LeaveUndoesJoin` | hub.go:1841-1993 | a successful join followed by the leave restores the whole registry but for the room version, which counts both |
| `RegistryRuns.UnregisterUndoesRegister` | hub.go:527-667 | a successful registration followed by the unregistration restores the registry, whatever limits and user id |
| `RegistryRuns.UnregisterForgets` | hub.go:606-614 | after an unregistration no structure mentions the client, and no other client's rooms or memberships change |
| `RegistryRuns.LeaveAllIsLeavingEach` | hub.go:693-768 | the sweep over all rooms has the effect of leaving the client's rooms one by one, in any order |
| `RegistryRuns.RegisterKeeps` | hub.go:527-561 | registering a client that is new to the hub keeps the invariant, whichever limit refuses it |
| `RegistryRuns.JoinKeeps` | hub.go:1841-1934 | joining keeps the invariant on every error path and on success |
| `RegistryRuns.LeaveKeeps` | hub.go:1938-1993 | leaving keeps the invariant, deleting the room with its last member |
| `RegistryRuns.LeaveAllKeeps` | hub.go:693-768 | the sweep keeps the invariant and leaves the client in no room |
| `RegistryRuns.UnregisterKeeps` | hub.go:565-614 | unregistering keeps the invariant |
| `RegistryAnswers.JoinSucceedsExactlyWhen` | hub.go:1841-1934 | a join succeeds if and only if the name is not empty, the client is registered and does not list the room, the registered clients that list it are fewer than MaxClientsPerRoom, and the client lists fewer rooms than MaxRoomsPerClient |
| `RegistryAnswers.JoinErrorsMean` | hub.go:1841-1914 | each of the five errors if and only if its reason is the first that applies, and nothing has changed then |
| `RegistryAnswers.JoinedIsMember` | hub.go:1916-1934 | after a successful join the client lists the room and is a member of it, and nothing else has changed |
| `RegistryAnswers.LeaveAnswersMean` | hub.go:1938-1966 | a leave succeeds if and only if the client lists the room; no registered client lists a room that is not found, and a client that is not in the room does not list it |
| `RegistryAnswers.LeftIsNoMember` | hub.go:1966-1993 | after a successful leave the client neither lists the room nor is in it, the room exists while someone else lists it, and nothing else has changed |
| `RegistryAnswers.RegisterAnswersMean` | hub.go:527-546 | a registration succeeds if and only if there are fewer clients than MaxConnections and fewer registered clients with its user id than MaxConnectionsPerUser; each error has its reason |
| `RegistryAnswers.SetUserAnswersMean` | hub.go:399-437 | SetUserID succeeds if and only if the user id is the old one, empty, or held by fewer registered clients than MaxConnectionsPerUser; the client then has it, and otherwise nothing changes |
| `RegistryAnswers.SetUserMovesClient` | hub.go:399-437 | a registered client is then found under its new user id and under no other, and the other clients as before |
| `RegistryAnswers.LastEventDecides` | hub.go:672-684 | with no limit on connections the last pending event about a client decides whether it is registered afterwards |
| `Registry.Hub.HandleRegister` | hub.go:527-561 | checks both limits in order and updates set, index, counter and user index together or not at all |
| `Registry.Hub.AddToUserIndex` | hub.go:359-376 | refuses a full user and otherwise files the client under its user id, if it has one |
| `Registry.Hub.RemoveFromUserIndex` | hub.go:380-394 | unfiles the client and drops an emptied entry |
| `Registry.Hub.SetClientUserID` | hub.go:399-437 | moves the client between user entries, or changes nothing when the user is unchanged or full |
| `Registry.Hub.JoinRoom` | hub.go:1841-1934 | the outcome whose answers `RegistryAnswers` characterises: an error with no trace left, or membership on both sides, a new snapshot and one version bump |
| `Registry.Hub.LeaveRoom` | hub.go:1938-1993 | the outcome whose answers `RegistryAnswers` characterises: an error, or removal on both sides and deletion of an emptied room |
| `Registry.Hub.RemoveClientFromAllRooms` | hub.go:693-768 | removes the client from every room it lists and is in, deleting emptied rooms, and adds their number to the version |
| `Registry.Hub.HandleUnregister` | hub.go:565-614 | unknown clients change nothing; others leave index, users, rooms and counter |
| `Registry.Hub.DrainAndRebuildSnapshot` | hub.go:672-684 | every pending event is handled in order, and the snapshot then lists exactly the registered clients |
| `RoomRuns.EmptyRoomIsAnsweredFor` | hub.go:1861-1919 | no leaked rooms: in every interleaving a memberless room in h.rooms has a call in flight that made it and has not settled its limits, or that emptied it or found it empty and still has to run deleteRoomIfEmpty; so with no call in flight none exists |
| `RoomRuns.FreeRoomIsSound` | hub.go:348-354 | every room object ever made, whenever its mutex is free, has a snapshot that lists its members once each, and is within MaxClientsPerRoom |
| `RoomRuns.RoomsPerClientBounded` | hub.go:1905-1914 | in every interleaving no client lists more rooms than MaxRoomsPerClient |
| `RoomRuns.RoomMetricExact` | hub.go:1861-1871 | whenever roomsMu is free, room increments minus decrements is the number of rooms |
| `RoomRuns.OnlyEmptyRoomsAreDeleted` | hub.go:773-782 | a name is only unlinked by a call that holds the very object linked there and finds it memberless with an empty snapshot |
| `RoomRuns.CachedSizesAreFresh` | presence.go:61-104 | when the cached version is current and no call owes a bump, the cached room sizes are those a fresh gather would find, though version, room map and rooms are read one after the other while they change |
| `PresencePass.PassReports` | presence.go:61-115 | in every interleaving each pass of the publisher ends with a report made for the client count at its start and for a room version of its own time; it repeats the report before, or every room's size, and the absence of every other room, was read during the pass |
| `PresencePass.QuietPassReportsRooms` | presence.go:61-104 | a pass during which no room changes, begun with every change counted in the room version, reports every room as it is, whatever was reported before: no counted change is missed |
| `PresencePass.PublisherIsHeldUpExactlyWhen` | presence.go:66-80 | the publisher can take its next step unless it is to read-lock roomsMu while a call holds it |
| `RoomAlone.LoneJoinAnswers` | hub.go:1841-1934 | a join that is not vetoed and that nothing interferes with refuses for exactly the five reasons and then restores the rooms, or ends with the client as one more member and the room on its list |
| `RoomAlone.LoneLeaveAnswers` | hub.go:1938-1993 | a leave that nothing interferes with takes the client out and drops the room with its last member, or changes nothing exactly when the client was not there |
| `RoomSweep.LoneSweepAnswers` | hub.go:693-768 | a sweep that nothing interferes with takes the client out of every room it lists and is in, whatever the order, drops those that leaves empty, and adds their number to the version |
| `RoomProgress.SomethingCanMove` | hub.go:1841-1993 | no deadlock: while any join, leave or sweep is unfinished, a step of the run is enabled that belongs to one of them or to the gather under way |
| `RoomProgress.NoEndlessRun` | hub.go:693-768 | the calls already made and the gather take finitely many steps, however many rooms a sweep finds listed when it starts |
| `RoomProgress.StuckMeansReturned` | hub.go:1841-1993 | where they can take no more, every call has returned |
| `RoomLinks.JoinedRoomIsLinkedExactlyWhenNotDeleted` | hub.go:1861-1919 | the room a join has entered is in h.rooms, for as long as it is occupied, if and only if no step between the lookup and the lock unlinked it; such a step is a deletion that holds the room and finds it empty |
| `RoomLinks.UndisturbedJoinIsLinked` | hub.go:1861-1919 | a join during which no other call is leaving, sweeping or failing to join a room of that name ends in a room that h.rooms knows |
| `RoomLinks.OccupiedRoomKeepsItsLink` | hub.go:773-782 | while a join holds a room, or the room has members, nothing links or unlinks it |
| `RoomStranded.JoinedRoomCanBeUnlinked` | hub.go:1871-1875 | a finished run in which a registered client has joined without error, lists the room, and is a member of an object that h.rooms does not know |
| `SendConservation.ChannelConserves` | hub.go:1159-1249 | with any number of senders, the writer and the unregister drain: what was enqueued is, in order, what was taken, evicted or discarded followed by the queue, which never exceeds its capacity |
| `SendConservation.EachSendSettlesOnce` | hub.go:1159-1198 | a send that returned true enqueued its own item once and reported nothing, one that returned false did the reverse, one that found the client closed did neither |
| `SendConservation.NotificationsAreExact` | hub.go:1240-1249 | drop notifications are the evicted items in order, but for one still to come, and one per rejected send |
| `SendConservation.DropOldestFailsOnlyUnderPressure` | hub.go:1205-1237 | a DropOldest send evicts at most two items and fails only if at least two other sends got through meanwhile |
| `SendConservation.LoneSendFollowsPolicy` | hub.go:1159-1237 | every run of one send with no interference that has returned has the result and the buffer of the sequential policy, and has reported as dropped exactly the oldest entry under DropOldest and its own under DropNewest when the buffer was full |
| `SendConservation.LoneRunsAgree` | hub.go:1159-1237 | such a run is determined: any two that have returned took the same number of steps to the same state |
| `SendConservation.LoneSendSkipsClosed` | hub.go:1159-1168 | on a closed client a send without a context does nothing |
| `SendConservation.LoneContextSend` | hub.go:1639-1655 | a send with a context enqueues its item if there is room and it does not give up, and otherwise does nothing; it drops nothing |
| `SendBuffer.BurstKeeps` | hub.go:1186-1237 | with no consumer the buffer after a burst is its first min(n, capacity) items under DropNewest and its last under DropOldest |
| `SendBuffer.BurstDrops` | hub.go:1186-1249 | the drop reports of a burst are the items after the first min(n, capacity) under DropNewest and those before the last under DropOldest, in order |
| `SendBuffer.SendConserves` | hub.go:1159-1249 | what one send keeps and what it reports as dropped is what there was and the new item, nothing lost, doubled or reordered |
| `SendBuffer.Client.TrySendErr` | hub.go:1159-1198 | one send: nothing on a closed client, otherwise the buffer and the drop report that `SendBuffer.SendConserves` characterises |
| `SendBuffer.Client.SendAll` | hub.go:1159-1237 | a burst of n sends keeps the first or the last min(n, capacity) items, as the policy says, and reports exactly the others as dropped, in order |
| `Coalescing.RoundTripExactlyWhenClean` | client.go:603-664 | splitting text frames at newlines gives back exactly the messages written, in order, if and only if no text message contains a newline |
| `Coalescing.Pump.WritePump` | client.go:682-735 | for every behaviour of queue and connection: what is taken is exactly what the select and the receives delivered, every round reads as much of the queue as its event calls for, frames encode it in order and each is put there by a call that succeeded, the metric counts it; the loop goes on only while every call succeeds, a failed call is the last one but for those of a graceful close, and the close frame comes last, exactly if the last call of a graceful close succeeds (section 5.5.1 of RFC 6455); without failures a receiver gets exactly the messages taken if and only if no text message contains a newline |
| `Coalescing.Pump.WriteNext` | client.go:704-722 | one message from the select: written together with the text messages read after it when coalescing, and otherwise alone and followed by a flush |
| `Coalescing.Pump.DrainQueued` | client.go:552-575 | takes as many messages as it saw queued, or fewer if a read finds the queue empty, and writes each in its own frame, unless a write fails |
| `Coalescing.Pump.WriteCoalescedBatch` | client.go:603-664 | unless a write fails: reads n text messages, or fewer up to a read that finds the queue empty or a message of another type, and writes the first message and those read in one text frame, then the other one in its own |
| `Coalescing.Pump.DrainQueuedCoalesced` | client.go:581-598 | a text message starts one batch of at most the messages seen queued; any other is written alone, and followed by a flush if messages were seen queued |
| `Coalescing.SplitJoin` | client.go:603-664 | splitting a batch joined with newlines recovers its payloads when none contains a newline |
| `PumpRuns.FrameWasSent` | client.go:552-735 | each frame on the wire was put there by a successful call on the connection, with the frames before it on the wire already |
| `PumpRuns.OneFrameEach` | client.go:552-735 | there are exactly as many frames as successful sending calls |
| `PumpRuns.QuietRoundTakesAll` | client.go:552-722 | a round with a message, and the flush of a graceful close, take all that is queued when nobody adds to the queue meanwhile; a coalescing round may stop early only at a message that is not text |
| `EndToEnd.ReceiverGetsWhatWasTaken` | client.go:682-735 | for a run of the send queue and a pump that has written what it took from it: the receiver gets exactly the items taken, in order, if and only if no text among them contains a newline |
| `EndToEnd.EachSendIsAccountedFor` | hub.go:1159-1249 | the item of a send that returned true is, exactly once, with the writer, evicted or discarded, or still queued; that of any other returned send is nowhere |
| `EndToEnd.NothingIsLost` | hub.go:1159-1198 | without evictions and discards, what was enqueued is what the receiver got, in order, followed by the queue |
| `DrainProtocol.DrainIsSignalled` | hub.go:804-839 | no lost wake-up: a draining hub without clients has closed drainDone unless a thread is between its own update and the end of the check that follows it |
| `DrainProtocol.DoneClosedAtMostOnce` | hub.go:610-617 | drainDone is closed at most once, whoever races to close it |
| `DrainProtocol.StateOnlyMovesForward` | hub.go:900-920 | the state goes Running, Draining, Stopped and never back |
| `DrainProtocol.DrainNilMeansSettled` | hub.go:804-839 | Drain returns nil only if the hub had no client at some instant after draining began, or shutdown had begun |
| `DrainProtocol.DrainErrMeansExpired` | hub.go:831-838 | Drain returns an error only if its own context is done |
| `DrainProtocol.StuckMeansWaitingForClients` | hub.go:804-839 | where neither a call nor an unregistration under way can move, every call has returned but the Drains that wait with reason: the hub is draining, has clients, and their context is not done |
| `DrainProtocol.Lifecycle.Drain` | hub.go:804-828 | undisturbed, Drain returns at once exactly for a stopped hub or a running one without clients, starts the drain exactly for a running hub, and announces an empty one |
| `DrainProtocol.Lifecycle.Unregister` | hub.go:606-617 | undisturbed, the end of an unregistration of the last client of a draining hub completes the drain |
| `DrainProtocol.Lifecycle.Shutdown` | hub.go:900-908 | undisturbed, shutdown stops the hub and releases every waiting Drain |
| `IdleReaper.ClosedExactlyWhenIdle` | hub.go:844-895 | a tick closes a client if and only if it was in the snapshot with an empty buffer at every tick back to one at least drainTimeout earlier, with no close in between |
| `IdleReaper.IdleClientIsClosed` | hub.go:844-895 | with ticks at most one interval apart, a client idle from some time until it is closed, whatever it does afterwards, is closed by then plus drainTimeout plus two intervals |
| `IdleReaper.Reaper.Run` | hub.go:844-895 | the loop over ticks closes exactly the clients the one-client recurrence says |
| `NatsOwnership.EverySubscriptionIsOwned` | adapter/nats/nats.go:141-242 | in every interleaving each subscription ever made has been drained, or is current, or is held by a call that will drain it, never by two, and is drained at most once |
| `NatsOwnership.InstallNeverOverwrites` | adapter/nats/nats.go:183-200 | a subscription is only installed over none, a closed adapter has none, and it stays closed |
| `NatsInstall.InstalledExactlyWhenLast` | adapter/nats/nats.go:141-200 | in every interleaving a Subscribe that reaches its second locked section makes its subscription current if and only if no other Subscribe or Close has entered since it claimed its generation |
| `NatsInstall.LastSubscribeIsCurrent` | adapter/nats/nats.go:141-220 | the last Subscribe to enter an open adapter returns, if it could connect, with its own subscription current, drained only if its context was cancelled |
| `NatsInstall.CurrentIsDrainedOnlyIfCancelled` | adapter/nats/nats.go:202-220 | at every moment the current subscription is undrained and has a watcher, or its context was cancelled |
| `NatsInstall.CancelledMeansDrained` | adapter/nats/nats.go:202-220 | where nothing can move any more, every subscription whose context was cancelled has been drained once |
| `NatsOwnership.ClosedMeansReleased` | adapter/nats/nats.go:224-242 | once closed with no call under way, every subscription was drained exactly once and the watcher count is zero; calls that begin later change nothing |
| `NatsOwnership.SomethingCanMove` | adapter/nats/nats.go:141-242 | no deadlock: while a call has not returned, a call or a watcher can move |
| `NatsOwnership.WorkRunsAreBounded` | adapter/nats/nats.go:141-242 | the calls already made and their watchers take a bounded number of steps |
| `NatsOwnership.StuckMeansReturned` | adapter/nats/nats.go:141-242 | when none of them can move, every call has returned |
| `NatsAdapter.Adapter.BeginSubscribe` | adapter/nats/nats.go:141-154 | the first locked section: refused when closed, else a new generation and the current subscription for the caller |
| `NatsAdapter.Adapter.FinishSubscribe` | adapter/nats/nats.go:183-200 | the second: installs and counts a watcher exactly if the adapter is open and its generation is still the one claimed, and otherwise changes nothing |
| `NatsAdapter.Adapter.BeginClose` | adapter/nats/nats.go:224-233 | one Close wins and takes the current subscription |
| `RedisSlots.CounterIsReservedSlots` | adapter/redis/redis.go:102-189 | in every interleaving the WaitGroup counter is the reserved slots not yet given back, so never negative |
| `RedisSlots.CounterNeverRisesOnceClosed` | adapter/redis/redis.go:105-123 | after closing, no slot is reserved again |
| `RedisSlots.NoStrandedContext` | adapter/redis/redis.go:102-189 | a context that reserved slots and is not cancelled is the one in a.cancel or about to be cancelled by a call |
| `RedisSlots.WaitedMeansDone` | adapter/redis/redis.go:174-189 | a Close that has finished waiting left no goroutine behind |
| `RedisSlots.WaitCannotHang` | adapter/redis/redis.go:174-189 | while Close waits, some goroutine or another call can move |
| `RedisSlots.WorkRunsAreBounded` | adapter/redis/redis.go:102-189 | calls and their goroutines take a bounded number of steps |
| `RedisSlots.StuckMeansReturned` | adapter/redis/redis.go:102-189 | when none can move every call has returned, so the wait always completes |
| `RedisLast.LastSubscribeLives` | adapter/redis/redis.go:102-189 | the last Subscribe to enter an open adapter keeps a.cancel, its context is cancelled only by its caller or by its own failure to connect, and once it has returned with a live context both its goroutines run |
| `RedisLast.OnlyTheLastLives` | adapter/redis/redis.go:102-189 | where nothing can move any more, every other context, and every one once the adapter is closed, is cancelled with both goroutines gone |
| `RedisAdapter.Adapter.BeginSubscribe` | adapter/redis/redis.go:105-123 | the locked section of Subscribe: refused when closed, else two slots reserved and the previous cancel function taken over |
| `RedisAdapter.Adapter.BeginClose` | adapter/redis/redis.go:174-182 | one Close wins and takes the cancel function |
| `FanOutOnce.AtMostOnce` | hub.go:1477-1519 | in every interleaving of broadcasts, workers and shutdown: no client is handed an item twice, no batch runs twice, no WaitGroup is negative |
| `FanOutOnce.AcceptedBatchesRanOnce` | workerpool.go:52-107 | when a broadcast returns, accepted batches have run exactly once and the others were left to the caller |
| `FanOutProgress.SomethingCanMove` | hub.go:1477-1519 | no broadcast hangs: while one has not returned, it or a worker can take a step, also after shutdown and with all workers busy |
| `FanOutProgress.WaitingIsOwed` | hub.go:1493-1518 | a WaitGroup above zero stands for a batch that is in the channel or with a worker |
| `FanOutProgress.WorkRunsAreBounded` | workerpool.go:52-107 | broadcasts already made and their workers take a bounded number of steps |
| `FanOutProgress.StuckMeansReturned` | hub.go:1493-1518 | where they can take no more, every WaitGroup has reached exactly zero and every broadcast has returned |
| `FanOutOnce.NilExactlyWhenAllServed` | hub.go:1580-1655 | a broadcast returns nil if and only if every client was handed the item exactly once, and an error only if it has a context and that was cancelled |
| `FanOutOnce.ServedFormPrefix` | hub.go:1580-1655 | inside each batch, whoever runs it, the clients served form a prefix |
| `FanOut.CutBatches` | hub.go:1477-1519 | the submit loop cuts the list into a partition of batches, all full but the last |
| `FanOut.SendSerial` | hub.go:1585-1592 | the serial path returns nil exactly when every attempt succeeds and otherwise served a prefix |
| `PresenceTotals.CachedExactlyWhenFresh` | presence.go:118-152 | a peer is cached if and only if no tick found its last report stale, and then with that report |
| `PresenceTotals.NeverInOwnCache` | hub.go:1267-1271 | a node that hubs report under its own id is never in its own cache |
| `PresenceTotals.TimelyPeerStays` | presence.go:141-152 | a peer whose consecutive reports are at most one TTL apart is never evicted |
| `PresenceTotals.SilentPeerGoes` | presence.go:141-152 | a silent peer is gone by its last report plus the TTL plus one tick interval |
| `PresenceTotals.Hub.HandleReport` | presence.go:118-137 | a report of another node replaces that node's entry; its own reports, and any when presence is off, change nothing |
| `PresenceTotals.Hub.EvictStaleNodes` | presence.go:141-152 | keeps exactly the entries within the TTL |
| `PresenceTotals.Hub.GlobalClientCount` | presence.go:157-171 | the local count plus the sum over the cached reports, in whatever order they are read |
| `PresenceTotals.Hub.GlobalRoomCount` | presence.go:176-193 | likewise for one room, reading a missing room as zero |
| `PresenceTotals.Hub.CountAfter` | presence.go:118-171 | after any history of reports and ticks the global count is the local one plus the latest report of each peer not evicted |
| `PresenceTotals.TotalsAddLastReports` | presence.go:118-193 | after any history what the peers add to the two global counts is the sum, over the peers whose last report is not stale, of the clients and of the room's members in that report |
| `RelayOnce.OfferedExactlyOnce` | hub.go:1254-1364 | for calls to everyone, a room, a user or one client: a client among those its node knows as addressed since before the call, and not excluded, has been offered the item exactly once when the call has returned and its node has handled the message, or not at all if the call was another node's and was not published |
| `RelayOnce.OfferedAtMostOnce` | hub.go:1254-1364 | at every moment of every run nobody has been offered one call's item twice |
| `RelayOnce.ExcludedNeverOffered` | hub.go:1715-1740 | no node ever offers an item to a client its call excluded |
| `RelayOnce.RelayingEnds` | hub.go:1267-1297 | between API calls relaying takes a bounded number of steps, since handling publishes nothing |
| `RelayOnce.WorkMeansAStep` | hub.go:1254-1297 | relaying can go on exactly while a call has yet to publish or a message waits |
| `RelayOnce.PublishesAtMostCalls` | hub.go:1715-1740 | a run publishes at most one message per API call |
| `Relay.IdsExcludeTheSame` | hub.go:1351-1364 | with distinct client ids, excluding by id on another node leaves the same clients as excluding by identity |
| `Relay.KeptCounts` | hub.go:1683-1701 | each client of a snapshot is offered the item once, or not at all if excluded |
| `Relay.BuildExcludeSet` | hub.go:1303-1338 | no set for at most four entries, otherwise exactly the entries |
| `Relay.BroadcastExceptClients` | hub.go:1683-1701 | offers the item to the snapshot without the excluded clients, in order, with set or linear scan, serial or parallel |
| `Relay.BroadcastExceptByIds` | hub.go:1351-1364 | the same by id, and to everyone for an empty list |
| `Relay.HandleAdapterMessage` | hub.go:1267-1297 | for all seven kinds of message: a node's own are ignored, the others offered to those of its clients they are for; presence is passed on to the cache |
| `Relay.OfferLocally` | hub.go:2031-2145 | an API call offers its item to those of its own node's clients it is for, and to none when room, user or client are not known there |
| `Relay.HeardIsAudience` | hub.go:1351-1425 | what a node offers for a published call are the clients the call is for, without the excluded ones |
| `Audiences.AudienceIsAddressed` | hub.go:1427-1472 | the clients a call is for are, once each, exactly the registered ones: all, those that list the room, those with the user id, or the one with the client id |
| `Audiences.OfferedAreAddressed` | hub.go:1683-1701 | an API call offers the item once to each registered client it is for and does not exclude, and to nobody else on its node |
| `Relay.MessageFor` | hub.go:1715-1740 | the kind, the address and the ids that are published for each target |
| `TokenBucket.AcceptedInFullExactlyWhenFits` | client.go:370-394 | a stream is accepted in full if and only if every window from arrival i to arrival j holds at most rate + rate * (t_j - t_i) messages |
| `TokenBucket.AcceptedStreamFits` | client.go:370-394 | for any stream the accepted messages alone satisfy that bound in every window |
| `TokenBucket.TightestWindow` | client.go:370-394 | while all is accepted the bucket's level is what the tightest window ending now leaves |
| `TokenBucket.Limiter.CheckAll` | client.go:370-394 | a connection's decisions are those of the recurrence the theorems are about |
| `TokenBucket.Limiter.CheckRateLimit` | client.go:370-394 | one decision: refill capped at the rate, accept and spend one token if there is one; no limit accepts everything |

## Left out

- HTTP upgrade, origin checks, read deadlines, pong handling and the WebSocket library: I/O. A call on the connection is an entry in a history that succeeds or fails; the length of a write deadline is left out, that one is set before each write is not.
- JSON encoding of adapter and presence messages: library code; records pass through unchanged.
- Panic recovery in the send paths: nothing closes `client.send`. Recovery in `submit` is modelled.
- Router, middleware, configuration defaults, limit builders, health handlers, examples and the load generator: one-branch facts.
- Clients and rooms as heap objects in `Registry`: their mutable fields are maps of the hub, so aliasing between objects is not captured there; `RoomProtocol` has room objects with an identity of their own.
- BeforeRoomJoin and BeforeRoomLeave in `Registry`: hooks are user code. In `RoomProtocol` a join may be vetoed and arbitrary steps happen while a hook runs.
- Room calls in `UserIndex`: they touch neither the user index nor a user id. A client is registered at most once, as UpgradeConnection does.
- Agreement of room members with client lists and registrations while calls interleave: not kept by the code; `RoomStranded.JoinedRoomCanBeUnlinked` shows one way it fails.
- Blocked context sends: the code does not promise that they end, nor that no client registers after draining has begun. In `FanOutProgress` handing the item to one client is one step.
- RelayOnce.OfferedExactlyOnce: covers clients connected throughout; for one that comes or goes meanwhile only at-most-once is stated, because the code decides by the snapshot it happens to read.
- TokenBucket.Limiter.CheckRateLimit: token amounts are reals, so float64 rounding is not modelled.
