# Mayoiga coordination protocols, verified

This project models the protocols by which Mayoiga nodes reach each other through a coordinator,
and proves what they promise over every run.

| Part | Files |
|---|---|
| Request queue: cursors, leases, expiry, idempotency, long polls, the node's durable inbox | `ConnectionStore`, `SweepEffect`, `StoreInvariants`, `ConnectionServer`, `InboxMerge`, `NodeInbox`, `Delivery`, `DeliveryInvariants`, `DeliveryProofs`, `DeliveryTheorems`, `RequestMeaning`, `RequestTheorems`, `StaleSave` |
| The handlers are the events of the runs | `Refinement` |
| Reverse handoff: waiters, takers and offer workers around one relay | `ReverseBroker`, `RelayBroker`, `Handoff`, `HandoffTheorems` |
| Revisioned discovery: node table, heartbeats, cached peers | `Candidates`, `NodeTable`, `NodeTableServer`, `Discovery`, `DiscoveryProofs`, `DiscoveryTheorems`, `DiscoveryWorker`, `NodeMeaning`, `LateReply` |
| Enrollment | `Enrollment`, `EnrollmentMeaning`, `EnrollmentRuns`, `EnrollmentKeys`, `EnrollmentServer` |
| Process supervisor, rate limiter, nonces, routes | `Supervisor`, `RateLimiter`, `Nonces`, `Routes`, `DialOrder` |

`Prelude`, `Topology` and `Sorting` hold what the parts share. `dafny verify dfyconfig.toml` checks everything.

## How it is built

Code that changes state under a mutex is a class (`Registry`, `Broker`, `Directory`, `Manager`,
`InboxFile`, ...). Its methods have the source's branches and loops; a `range` over a map is a loop
that picks any remaining key. Each method's `ensures` equates the new abstract state with a function
of the old one. Those same functions are the steps of the run models (`Delivery`, `Handoff`,
`Discovery`, `EnrollmentRuns`), where an event is one critical section, one channel operation or one
read or write, and the theorems speak of every state of every run. `Refinement` takes what a
connection, inbox, node or enrollment handler ensures about one call and proves that it is such an
event, with the answer that the event records. What those functions amount to is stated a second time, without using them: the `Meaning` modules
say for each operation which records, fields, statuses, channels and addresses must come out, and
`RequestTheorems`, `EnrollmentKeys`, `Nonces` and `HandoffTheorems` say so of whole runs. Whatever the source leaves to
chance (map order, what a sort does with a batch, lost or repeated replies, timeouts, crashes of
nodes, failed writes) is carried by the event or passed to the method, and left unconstrained.

Assumptions:

- Time is an integer and does not go back from one critical section to the next. Discovery does not need this.
- Random tokens (request IDs, handoff tokens, enrollment IDs) have not been used before. `HandoffTheorems.ExactlyOnce` does not need this.
- The source of a connection request contains no NUL, because it arrives in an HTTP header. Its idempotency key may contain any character.
- A node's `after_cursor` is 0 or a cursor of some reply the coordinator ever wrote to it, however old.
- Route resolution is given cached peers with distinct IDs, which is what every listing of the coordinator has (`NodeTableServer.Directory.List`).
- The four loops of `cleanupLocked` work on disjoint state, so each part sweeps its own. A handler that fails when a sweep cannot be written takes a flag for what the other loops changed.
- A failed write of the coordinator's state changes the answer only: the source keeps the new state in memory.
- In runs a node can read back the inbox it wrote. `InboxMerge.UnreadableSave` says what it costs when it cannot; an inbox that is read but does not decode counts as unreadable.
- For the bound on enrollment history, requests are made after the zero instant of the clock.
- A SHA-256 digest of a profile identifies its contents; signature checks are given answers.

## Findings

- A waiter can hold a connection whose offer was *rejected* (`HandoffTheorems.ReceivedButRejected`, a run). `HandoffTheorems.ReceivedThenRead` says exactly when: a received connection is rejected if and only if its worker's read of `OK` failed, and accepted if and only if it succeeded, unless the worker crashed.
- Revoking an active node changes the table and not the revision (`DiscoveryTheorems.RevocationBreaksCoherence`); a coherent cache stays coherent exactly if it did not show that node (`DiscoveryTheorems.RevocationStalesCache`). Every other step keeps equal revisions equal.
- A one-off `syncDiscovery` that saves an old reply after the worker has recorded a newer revision leaves a stale cache under a current revision (`LateReply.LateReplyBreaksCoherence`, a run). The save is harmless exactly if the node would be shown now what it was shown at the reply's revision (`LateReply.CommandSaveCoherent`). The runs guard the save by what the worker relies on, and that guard is exact (`LateReply.GuardIsExact`). The command cannot see the worker's memory, but it could compare its reply with the revision `peers.json` was written from, if the file carried it (`LateReply.CacheRevisionSuffices`); the revision in the status file would not do (`LateReply.StatusFileNotEnough`).
- `saveInbox` lets the reply's copy of a request win. That is the newest copy exactly if the reply is nowhere older than the inbox (`DeliveryTheorems.SaveKeepsNewestExactly`), which holds for every save of `waitInbox` (`DeliveryTheorems.WaitInboxKeepsNewest`); saving two replies in the wrong order goes back (`StaleSave.StaleSaveGoesBack`, a run).
- `saveInbox` ignores a read error and then forgets every request the reply does not name (`InboxMerge.UnreadableSave`).
- Trimming the enrollment history does not always reach its limit: whoever handles a pending handshake whose entry was trimmed writes back an entry without an ID (`Enrollment.WrittenBackWithoutId`), and trimming deletes by that ID. In every run a sweep reaches the limit exactly if the history was within it or holds no such entry (`EnrollmentRuns.HistoryBound`); `Enrollment.TrimCanFail` is a history it cannot cut.
- `Nonces.ReplayPossible`: a signed request can be accepted twice exactly when it was stamped no earlier than the instant it first arrived.
- `RateLimiter.BoundIsReached`: the factor two of the window bound is attained.
- The comment at `internal/app/relay_server.go:105-107` asks that a request be accepted only once a live waiter has the connection: that is `HandoffTheorems.AcceptedMeansReceived`.

## Model

| member | source | states |
|---|---|---|
| SweepEffect.SweepHasEffect | internal/app/coordinator_nodes.go:344-368 | in any visiting order the sweep expires, requeues and retires exactly the records whose state and instants say so, and wakes exactly their waiters |
| SweepEffect.SweepSettles | internal/app/coordinator_nodes.go:344-368 | after a sweep nothing is left to expire, requeue or retire at that instant |
| SweepEffect.SweepIdempotent | internal/app/coordinator_nodes.go:344-368 | a second sweep at the same instant changes nothing, whatever the orders |
| SweepEffect.RequeuedCursorsAreConsecutive | internal/app/coordinator_nodes.go:353-361 | the k requeued requests of a target take exactly the cursors c+1..c+k and the counter ends at c+k |
| SweepEffect.SweepOrderIrrelevant | internal/app/coordinator_nodes.go:344-368 | two visiting orders agree on everything but which requeued record got which of the new cursors |
| StoreInvariants.IndexKeyInjective | internal/app/connection_server.go:79-79 | source, NUL, key determines both parts when the source has no NUL |
| StoreInvariants.KeysUnique | internal/app/connection_server.go:148-149 | no two stored requests share source and key |
| StoreInvariants.SweepOk | internal/app/coordinator_nodes.go:344-368 | a sweep keeps the index a bijection, cursors distinct and bounded, records well formed, queues within limits and channels open |
| StoreInvariants.InsertOk | internal/app/connection_server.go:118-149 | so does storing a request that passed all checks |
| StoreInvariants.RewriteOk | internal/app/connection_server.go:324-330 | so does a decision, a cancellation or an offer |
| ConnectionServer.Registry.CleanupOne | internal/app/coordinator_nodes.go:345-367 | one turn of the loop is SweepOne: expiry before requeue before retirement |
| ConnectionServer.Registry.Cleanup | internal/app/coordinator_nodes.go:344-368 | the loop is the sweep in some order of all keys, and reports a change exactly if a record was due |
| ConnectionServer.Registry.NotifyTarget | internal/app/connection_server.go:493-498 | closes and forgets the channel of a target, if there is one |
| ConnectionServer.Registry.NotifyRequest | internal/app/connection_server.go:500-505 | the same for a request |
| ConnectionServer.Registry.TargetSignal | internal/app/connection_server.go:475-482 | returns the registered channel or registers a new one |
| ConnectionServer.Registry.RequestSignal | internal/app/connection_server.go:484-491 | the same for a request |
| ConnectionServer.Registry.PendingEvents | internal/app/connection_server.go:237-249 | the queued records above the cursor with the smallest cursors, ascending, at most the limit, and none skipped |
| ConnectionServer.Registry.CountLive | internal/app/connection_server.go:123-128 | the number of non-terminal records of a target |
| ConnectionServer.Registry.Admit | internal/app/connection_server.go:90-133 | the refusals of a create in the source's order, down to 503 and 429 |
| ConnectionServer.Registry.CreateConnection | internal/app/connection_server.go:59-160 | malformed input changes nothing; else sweep, then answer the indexed request, refuse, or store one record under the next cursor and wake both waiters; every invariant is kept |
| ConnectionServer.Registry.InboxPass | internal/app/connection_server.go:192-234 | sweep, then either offer exactly the batch under a lease and answer its last cursor, or subscribe and hold the counter as the answer to a timeout |
| ConnectionServer.Registry.OfferBatch | internal/app/connection_server.go:198-205 | every record of the batch becomes offered with the lease end, and its status waiters wake |
| ConnectionServer.Registry.BeginInboxWait | internal/app/connection_server.go:177-184 | a second poll of a node is refused with 409 |
| ConnectionServer.Registry.EndInboxWait | internal/app/connection_server.go:185-189 | the node may poll again |
| ConnectionStore.InboxLimit | internal/app/connection_server.go:173-176 | a batch limit between 1 and 32, the caller's if it lies there |
| ConnectionServer.Registry.AckInbox | internal/app/connection_server.go:261-277 | 409 and no change ahead of the counter; otherwise the acknowledgement only rises |
| ConnectionServer.Registry.Decide | internal/app/connection_server.go:280-336 | 400, 404, 403, repeat, 409 or one terminal rewrite by the target, with the sweep and both failing writes |
| ConnectionServer.Registry.Cancel | internal/app/connection_server.go:338-395 | the same for the source's cancellation, which also wakes the target |
| ConnectionServer.Registry.StatusPass | internal/app/connection_server.go:409-452 | blocks exactly if the state is the known one and not terminal; else answers |
| RequestMeaning.SweepMeans | internal/app/coordinator_nodes.go:344-368 | a live record past its expiry becomes expired with 410, an offered one past its lease is queued again, a record decided over 24 hours ago is gone, and every other record is as it was |
| RequestMeaning.CreateMeans | internal/app/connection_server.go:79-159 | how a create ends on a swept store: the known request of that source and key, the refusal that applies (404, 400, 404, 503, 429) or one stored record with exactly the caller's fields, the next cursor, its lifetime and both channels closed |
| RequestMeaning.DecideMeans | internal/app/connection_server.go:303-335 | 404, 403 and 409 change nothing; the target decides any queued or offered request, with state, code, reason and instant, and its channel closes; 200 exactly then or on a repeat |
| RequestMeaning.CancelMeans | internal/app/connection_server.go:361-394 | the same for the source, 499 and both channels |
| RequestMeaning.StatusMeans | internal/app/connection_server.go:409-452 | source and target are answered the stored record and nobody else is; a wait goes on exactly in the known live state |
| RequestMeaning.PassDelivers | internal/app/connection_server.go:195-215 | a pass with something waiting answers the smallest cursors above its own, in order, as offered until the lease ends, and stores just those |
| RequestMeaning.PassBlocks | internal/app/connection_server.go:216-233 | with nothing waiting it changes no record and waits on the channel of its target |
| RequestMeaning.AckMeans | internal/app/connection_server.go:262-275 | a cursor within the counter is recorded if it is larger; nothing else changes |
| DeliveryProofs.StepOk | internal/app/connection_server.go:59-452 | every event of the protocol keeps every invariant of store, polls, log, replies and inboxes |
| DeliveryTheorems.NoRequestSkipped | internal/app/connection_server.go:192-249 | a live request is under a lease, or queued above every cursor ever written to its target and above the cursor of every poll in progress |
| DeliveryTheorems.PassDeliversOldest | internal/app/connection_server.go:195-213 | a pass delivers whenever something is queued for its node, however stale its cursor, and nothing older is left behind |
| DeliveryTheorems.DeliveryOrder | internal/app/connection_server.go:196-213 | the cursors offered to a target over a whole run strictly increase |
| DeliveryTheorems.CursorsDistinctAndBounded | internal/app/connection_server.go:140-148 | stored cursors of a target are distinct and at most its counter |
| DeliveryTheorems.BatchUnique | internal/app/connection_server.go:237-249 | map order and sort leave no choice in a batch |
| DeliveryTheorems.DeliveryBound | internal/app/connection_server.go:195-204 | a request offered n >= 2 times satisfies (n-1)*lease < lifetime |
| DeliveryTheorems.NoLostInboxWakeup | internal/app/connection_server.go:216-233 | an inbox poll blocked on an open channel has nothing queued above its cursor |
| DeliveryTheorems.NoLostStatusWakeup | internal/app/connection_server.go:435-451 | a status poll blocked on an open channel still sees its known, non-terminal state |
| DeliveryTheorems.RetiredSignalStrandsNobody | internal/app/coordinator_nodes.go:362-366 | the channel a retirement drops unclosed is nobody's |
| DeliveryTheorems.OneInboxPollPerNode | internal/app/connection_server.go:177-189 | at most one inbox poll per node, and the waiter set is exact |
| DeliveryTheorems.HonestAckAccepted | internal/app/connection_inbox.go:115-131 | acknowledged <= saved <= counter, and an owed acknowledgement is never refused |
| DeliveryTheorems.InboxInOrder | internal/app/connection_inbox.go:24-55 | a saved inbox is strictly increasing by cursor, without repeated requests, and within its cursor |
| DeliveryTheorems.SaveKeepsNewestExactly | internal/app/connection_inbox.go:30-37 | in every run a save keeps the newest copy of every request exactly if the reply is nowhere older than the inbox |
| DeliveryTheorems.WaitInboxKeepsNewest | internal/app/connection_inbox.go:101-116 | a reply to a poll with the saved cursor, saved before that cursor moves, keeps the newest copies |
| StaleSave.StaleSaveGoesBack | internal/app/connection_inbox.go:35-37 | a run in which the older of two replies is saved last and an old copy returns |
| DeliveryTheorems.QueueBounds | internal/app/connection_server.go:118-133 | stored requests and live requests per target stay within their limits |
| DeliveryTheorems.RecordsFit | internal/app/coordinator_nodes.go:344-368 | state and status code match, a lease exists exactly while offered, decided records were updated by their expiry and expired ones after it |
| DeliveryTheorems.GoneForGood | internal/app/coordinator_nodes.go:362-366 | a removed request never comes back |
| DeliveryTheorems.FinalRecordsStay | internal/app/connection_server.go:319-323 | a terminal record never changes and is removed only more than 24 hours later |
| DeliveryTheorems.RequestsStay | internal/app/coordinator_nodes.go:362-366 | a stored request keeps its identity and leaves only by retirement |
| DeliveryTheorems.IndexConsistent | internal/app/connection_server.go:79-89 | index and records are in bijection, so the inconsistent-index error is unreachable |
| DeliveryTheorems.AnswerStored | internal/app/connection_server.go:79-89 | a create's answer is stored under the caller's source and key |
| DeliveryTheorems.SameKeySameRequest | internal/app/connection_server.go:79-89 | two creates with one key answer with one request, unless the first had been terminal for over 24 hours |
| RequestTheorems.RequestCarriesItsCreate | internal/app/connection_server.go:140-149 | in every run the stored record, every event of every reply and every event of every inbox with a request's ID carries exactly the source, key, target, service and return relay of the create that made it |
| Refinement.CreateIsEvent | internal/app/connection_server.go:59-160 | a create is a Create event of the runs, and answers a record that event leaves stored |
| Refinement.FailedCreateIsSweep | internal/app/connection_server.go:134-139 | a create without a token leaves what a plain sweep leaves |
| Refinement.PassIsEvent | internal/app/connection_server.go:192-234 | a pass of inbox/wait is a PollPass event: its answer is among the replies sent, its block is a blocked poll |
| Refinement.StatusBlockIsEvent | internal/app/connection_server.go:435-443 | a pass of status/wait that blocks is a StatusPass event whose poll waits on that channel |
| Refinement.StatusAnswerIsEvent | internal/app/connection_server.go:409-434 | a pass that answers is a StatusPass event that ends its poll, and answers a stored record the node may see |
| Refinement.StatusFailureIsTwoEvents | internal/app/connection_server.go:435-442 | a pass that subscribed and cannot write answers 500: the event, then the end of its poll |
| Refinement.PlainStatusIsSweep | internal/app/connection_server.go:423-434 | a status request without waiting leaves what a sweep leaves |
| Refinement.DecideIsEvent | internal/app/connection_server.go:294-335 | a decision is a DecideEvent |
| Refinement.DecideAnswer | internal/app/connection_server.go:303-335 | it answers 200 exactly with the stored record of a request to this node, in the decided state |
| Refinement.CancelIsEvent | internal/app/connection_server.go:352-394 | a cancellation is a CancelEvent |
| Refinement.CancelAnswer | internal/app/connection_server.go:361-394 | it answers 200 exactly with the stored record of a request of this node, canceled |
| Refinement.PollsAreEvents | internal/app/connection_server.go:177-189 | a poll begins exactly when its node has no other, and ends, as PollStart and PollLeave events |
| Refinement.ReceiveIsEvent | internal/app/connection_inbox.go:115-131 | a saved reply is a NodeSave event, and its acknowledgement the Ack event that enables |
| Refinement.RemoveIsEvent | internal/app/connection_client.go:148-172 | removing a request is a NodeForget event |
| Refinement.RequestIsEvent | internal/app/coordinator_enrollment.go:39-95 | a request for enrollment is a RequestEvent; a created one is pending with the code drawn for it |
| Refinement.DecisionsAreEvents | internal/app/coordinator_enrollment.go:228-325 | approvals and rejections are their events, and a 200 means the handshake now is approved or rejected |
| Refinement.EnrollmentHeartbeatIsEvent | internal/app/coordinator_nodes.go:107-126 | the enrollment side of a heartbeat is a HeartbeatEvent |
| Refinement.RevokeIsEvent | internal/app/coordinator_enrollment.go:346-361 | a revocation is a RevokeEvent, and leaves the node neither authorization nor activity nor handshake |
| Refinement.HeartbeatIsEvent | internal/app/coordinator_nodes.go:107-133 | an accepted heartbeat is a Heartbeat event of the stored node |
| Refinement.DiscoverIsEvent | internal/app/coordinator_nodes.go:238-261 | a served discovery request is a Serve event whose worker gets that answer |
| InboxMerge.MergeKeeps | internal/app/connection_inbox.go:24-55 | a merge lowers no cursor, keeps undecided events and the reply's last copy of each request, and adds nothing else |
| InboxMerge.NewestKeptExactly | internal/app/connection_inbox.go:30-37 | a merge holds the newest copy of every request exactly if the reply is nowhere older than the inbox |
| InboxMerge.UnreadableSave | internal/app/connection_inbox.go:28-33 | with an unreadable inbox exactly the requests the reply does not name are lost, and the cursor falls if the reply's is lower |
| NodeInbox.InboxFile.Save | internal/app/connection_inbox.go:24-55 | the loops, the sort and the cursor rule leave exactly a merge with what could be read, or nothing if the file cannot be written |
| NodeInbox.InboxFile.Receive | internal/app/connection_inbox.go:115-131 | a batch is acknowledged only after it is on disk, with its own cursor |
| NodeInbox.InboxFile.Remove | internal/app/connection_client.go:148-172 | removes exactly the given request |
| RelayBroker.Broker.Expect | internal/app/relay_types.go:64-81 | registers a new expectation under its token |
| RelayBroker.Broker.Take | internal/app/relay_types.go:83-93 | hands out and unregisters an expectation only for its token, target and service |
| RelayBroker.Broker.CloseDone | internal/app/relay_types.go:72-73 | the first half of cancel |
| RelayBroker.Broker.Withdraw | internal/app/relay_types.go:74-79 | the second half removes its own registration and never a later one |
| Handoff.StepOk | internal/app/relay_server.go:99-117 | every step of waiters, takers, workers and crashes keeps the handoff invariants |
| HandoffTheorems.ExactlyOnce | internal/app/relay_server.go:197-220 | in every interleaving no waiter receives twice and no connection is handed over twice |
| HandoffTheorems.OncePerToken | internal/app/relay_types.go:83-93 | each token hands over at most one connection, over all redeliveries |
| HandoffTheorems.OnlyTheBoundWaiter | internal/app/relay_types.go:86-89 | a connection reaches only a waiter for the dialing node, that service and that token |
| HandoffTheorems.AcceptedMeansReceived | internal/app/connection_workers.go:252-260 | an automatic accept is sent only for a connection that the bound waiter received |
| HandoffTheorems.OneAcceptPerToken | internal/app/connection_workers.go:252-260 | at most one dialed connection per token is ever accepted |
| HandoffTheorems.RedeliveryRefused | internal/app/relay_server.go:99-104 | after a handover a redelivered offer is turned away at the relay |
| HandoffTheorems.OneWorkerPerRequest | internal/app/connection_workers.go:205-222 | a node serves a request with at most one worker at a time, across crashes |
| HandoffTheorems.BlockedTakerIsServed | internal/app/relay_server.go:109-116 | a taker blocks only while its waiter has received nothing, and it or its waiter can always step towards its release |
| HandoffTheorems.WaitersOnlyAdvance | internal/app/relay_server.go:205-220 | no step sets a waiter back or makes another taker block |
| HandoffTheorems.PendingWaiterFindable | internal/app/relay_types.go:64-81 | a waiter that has not left is found by an offer of its own until one takes it |
| HandoffTheorems.OfferFindsItsWaiter | internal/app/relay_types.go:83-93 | in every run an offer is taken in exactly by the waiter of its token, node and service that has neither withdrawn nor been taken, and is refused exactly if there is none |
| HandoffTheorems.DialsUnlessServed | internal/app/connection_workers.go:209-216 | in every run a node starts a worker for a request exactly if none of its workers is on it |
| HandoffTheorems.ReceivedThenRead | internal/app/relay_dial.go:57-66 | a received connection is rejected exactly if the read of OK failed and accepted exactly if it succeeded, unless the worker crashed |
| HandoffTheorems.ReceivedButRejected | internal/app/relay_dial.go:57-66 | a run in which the waiter received the connection and the offer was rejected |
| Candidates.ManagedCandidates | internal/app/coordinator_nodes.go:182-200 | refuses more than 16 or an invalid address; else each address once, ascending, with the managed lease |
| Candidates.ManagedUnique | internal/app/coordinator_nodes.go:182-200 | order and repetition of what a node publishes do not matter |
| Candidates.LocalCandidates | internal/app/coordinator_client.go:279-287 | the at most 16 smallest distinct addresses, ascending |
| Candidates.LocalUnique | internal/app/coordinator_client.go:279-287 | the same list for every order of the interfaces |
| Candidates.LocalStoredUnchanged | internal/app/coordinator_client.go:279-287 | the coordinator accepts a node's own list and stores it as it is |
| NodeTable.SweepEffect | internal/app/coordinator_nodes.go:317-343 | the node sweep in closed form: silent nodes go, expired candidates go, and the revision rises by one per node affected |
| NodeTable.SweepOrderIrrelevant | internal/app/coordinator_nodes.go:317-343 | same table and revision in every visiting order |
| NodeTable.SweepIdempotent | internal/app/coordinator_nodes.go:317-343 | a second sweep at the same instant changes nothing |
| NodeTable.UnexpiredKeeps | internal/app/coordinator_nodes.go:326-332 | exactly the unexpired candidates survive |
| NodeTable.QuietHeartbeat | internal/app/coordinator_nodes.go:107-112 | a heartbeat that changes nothing visible and finds no lease running low leaves the revision alone |
| NodeTableServer.Directory.CleanupOne | internal/app/coordinator_nodes.go:317-343 | one turn of the loop |
| NodeTableServer.Directory.CleanupNodes | internal/app/coordinator_nodes.go:317-343 | the loop is the sweep in some order of all keys |
| NodeTableServer.FilterService | internal/app/coordinator_nodes.go:324-336 | filters in place only when something expired |
| NodeTableServer.PrepareServices | internal/app/coordinator_nodes.go:71-82 | refuses a service without name, UUID, valid pin or valid candidates; else fills in node, segment and lease |
| NodeTableServer.Directory.CheckRole | internal/app/coordinator_nodes.go:83-106 | a relay needs a valid advertisement, a subnode an active relay of its segment and network as upstream |
| NodeTableServer.Directory.UpdateNode | internal/app/coordinator_nodes.go:60-142 | a refused heartbeat changes nothing; an accepted one stores the prepared node, moves the revision if due, sweeps, and lists the peers |
| NodeTableServer.Directory.List | internal/app/coordinator_nodes.go:247-260 | every other node of the network once, by name, with its addresses exactly if it is of the same segment |
| NodeTableServer.Directory.Discover | internal/app/coordinator_nodes.go:238-261 | 409 for a node that must heartbeat first, unchanged exactly at the caller's revision, else the full listing |
| NodeMeaning.ListingMeans | internal/app/coordinator_nodes.go:217-260 | a listing holds exactly the other nodes of the network, once each and by name: a peer of the same segment as stored, any other with all but its candidates |
| NodeMeaning.StripMeans | internal/app/coordinator_nodes.go:144-165 | two nodes are the same topology exactly if they differ at most in LastSeen and lease ends |
| NodeMeaning.SweepMeans | internal/app/coordinator_nodes.go:317-343 | a node goes exactly if it was silent for more than two minutes; of the others exactly the expired candidates go |
| NodeMeaning.RegisterMeans | internal/app/coordinator_nodes.go:107-112 | the revision moves exactly for a new node, a changed topology, or a lease with at most 45 seconds left |
| NodeMeaning.PreparedMeans | internal/app/coordinator_nodes.go:69-106 | the stored node is the caller's, under its authorized key, with each candidate once for 90 seconds and only the fields of its role |
| NodeMeaning.AllowedMeans | internal/app/coordinator_nodes.go:64-106 | which heartbeats are accepted, once signed and within the rate: name, network, services, relay advertisement and upstream |
| DiscoveryWorker.DiscoveryNode.Publish | internal/app/connection_workers.go:115-127 | whatever the reader does between the selects, the channel ends holding the new revision |
| DiscoveryWorker.DiscoveryNode.Take | internal/app/connection_workers.go:143-147 | skips a revision that is already applied |
| DiscoveryWorker.DiscoveryNode.Fetched | internal/app/coordinator_client.go:212-221 | a reply behind the expected revision is refused; a changed one replaces the cache |
| DiscoveryWorker.DiscoveryNode.RecordRevision | internal/app/connection_workers.go:149-157 | records the heartbeat's revision, not the reply's |
| DiscoveryProofs.ListingShows | internal/app/coordinator_nodes.go:217-227 | what a peer is shown depends on the topology only, not on leases or LastSeen |
| DiscoveryProofs.TableStep | internal/app/coordinator_nodes.go:107-112 | every section either advances the revision or leaves the topology as it was |
| DiscoveryProofs.StepOk | internal/app/connection_workers.go:136-163 | every event keeps the discovery invariants, with lost and late replies, failed writes and node crashes |
| DiscoveryTheorems.RevisionDeterminesTopology | internal/app/coordinator_nodes.go:144-165 | equal revisions mean equal tables up to LastSeen and lease ends |
| DiscoveryTheorems.CacheCoherent | internal/app/coordinator_client.go:198-221 | a node whose recorded or held revision is the coordinator's caches exactly its current view, up to those fields |
| DiscoveryTheorems.CacheShowsAddresses | internal/app/coordinator_nodes.go:214-227 | under the current revision a node caches every shown peer of its own segment with its addresses, and any other without |
| DiscoveryTheorems.CacheIsASnapshot | internal/app/coordinator_client.go:214-220 | once saved, a cache is exactly what the coordinator showed the node in one earlier state, no older than the recorded revision |
| DiscoveryTheorems.NoRevisionMissed | internal/app/connection_workers.go:103-163 | a published revision is pending, applied, or its fetch failed |
| DiscoveryTheorems.AddressesStayInSegment | internal/app/coordinator_nodes.go:214-227 | a node of another segment is shown no direct address |
| DiscoveryTheorems.ListingComplete | internal/app/coordinator_nodes.go:247-252 | a node is listed exactly if it is another node of the same network |
| DiscoveryTheorems.RevocationBreaksCoherence | internal/app/coordinator_enrollment.go:350-351 | a revocation keeps revision and topology together exactly when the node was not active |
| DiscoveryTheorems.RevocationStalesCache | internal/app/coordinator_enrollment.go:350-351 | a coherent cache stays coherent exactly if it did not show the revoked node |
| LateReply.CommandSaveCoherent | internal/app/coordinator_client.go:165-220 | under a current recorded revision a command's save stays coherent exactly if the node would be shown now what it was shown at the reply's revision |
| LateReply.GuardIsExact | internal/app/coordinator_client.go:214-220 | the save keeps what the worker relies on exactly under the guard of the runs |
| LateReply.CacheRevisionSuffices | internal/app/coordinator_client.go:214-220 | a reply no older than the cache satisfies that guard |
| LateReply.StatusFileNotEnough | internal/app/connection_workers.go:149-157 | a reply no older than the status file need not: the worker may be about to record a newer revision |
| LateReply.LateReplyBreaksCoherence | internal/app/coordinator_client.go:165-220 | a run in which a command saves a reply older than the recorded revision and a coherent cache becomes stale |
| Enrollment.AdmitOk | internal/app/coordinator_enrollment.go:59-95 | admitting a handshake keeps codes distinct, flags exclusive, history truthful and both limits |
| Enrollment.ApproveOk | internal/app/coordinator_enrollment.go:244-269 | so does an approval |
| Enrollment.RejectOk | internal/app/coordinator_enrollment.go:305-315 | so does a rejection |
| Enrollment.RegisterOk | internal/app/coordinator_nodes.go:107-125 | so does a heartbeat that completes enrollments |
| Enrollment.RevokeOk | internal/app/coordinator_enrollment.go:346-361 | so does a revocation, which leaves no active node unauthorized |
| Enrollment.SweepOk | internal/app/coordinator_nodes.go:299-386 | so does a sweep with expiry and trimming |
| Enrollment.SearchUnique | internal/app/coordinator_enrollment.go:231-241 | a device code names at most one pending handshake |
| EnrollmentMeaning.ExpiryMeans | internal/app/coordinator_nodes.go:301-304 | a handshake stays exactly until its end, unchanged |
| EnrollmentMeaning.HistoryMeans | internal/app/coordinator_nodes.go:302-315 | retained history becomes 410 exactly if its handshake is overdue and it was open |
| EnrollmentMeaning.TrimMeans | internal/app/coordinator_nodes.go:374-384 | trimming takes nothing within the limit, and of the entries that carry their ID never a younger one than it keeps |
| EnrollmentMeaning.RequestMeans | internal/app/coordinator_enrollment.go:44-80 | which refusal applies to a request, in their order |
| EnrollmentMeaning.AdmitMeans | internal/app/coordinator_enrollment.go:81-85 | an admitted handshake waits ten minutes, undecided, with what was sent and drawn, and its history says 100 |
| EnrollmentMeaning.ApproveMeans | internal/app/coordinator_enrollment.go:231-269 | how an approval must end: 404, 409, a repeat, or the handshake's own key authorized for its node, whatever key was there |
| EnrollmentMeaning.RejectMeans | internal/app/coordinator_enrollment.go:285-315 | how a rejection must end: 404, 409 for an approved handshake, or rejected with its reason |
| EnrollmentMeaning.HeartbeatCompletes | internal/app/coordinator_nodes.go:113-125 | a heartbeat completes exactly the approved handshakes of its node that carry the authorized key |
| EnrollmentMeaning.RevokeMeans | internal/app/coordinator_enrollment.go:346-361 | a revocation takes the key, the active node and exactly the handshakes of the node |
| Enrollment.TrimBound | internal/app/coordinator_nodes.go:374-385 | trimming meets the limit exactly when every surplus entry carries its own ID |
| Enrollment.WrittenBackWithoutId | internal/app/coordinator_enrollment.go:260-263 | approving, rejecting, completing or revoking a handshake whose entry was trimmed writes back one without ID or creation time |
| Enrollment.TrimMeetsLimit | internal/app/coordinator_nodes.go:374-385 | trimming meets the limit exactly if the history is within it already or has no such entry |
| Enrollment.TrimCanFail | internal/app/coordinator_nodes.go:381-383 | a history of 10001 entries that trimming does not shorten |
| EnrollmentServer.Registry.AllocateDeviceCode | internal/app/coordinator_enrollment.go:117-135 | the first of at most 32 draws that no pending handshake uses, else an error |
| EnrollmentServer.Registry.AllocateRequestId | internal/app/coordinator_enrollment.go:101-115 | the same over pending and history |
| EnrollmentServer.Registry.ExpireHandshakes | internal/app/coordinator_nodes.go:301-316 | overdue handshakes go, and only their open history becomes 410 |
| EnrollmentServer.Registry.TrimHistory | internal/app/coordinator_nodes.go:374-385 | deletes by stored ID the surplus entries that were created first |
| EnrollmentServer.Registry.RequestEnrollment | internal/app/coordinator_enrollment.go:17-99 | each refusal with its status, 503 only when the draws for ID or code run out, or one new handshake with the first free ID and code and history 100 |
| EnrollmentServer.Registry.ApproveHandshake | internal/app/coordinator_enrollment.go:219-274 | 404, 409 for rejected or an unreplaced other key, a repeat without effect, or the approval |
| EnrollmentServer.Registry.RejectHandshake | internal/app/coordinator_enrollment.go:276-325 | 400, 404, 409 for approved, or the rejection with its reason |
| EnrollmentServer.Registry.Heartbeat | internal/app/coordinator_nodes.go:107-126 | stores the node, completes its approved handshakes with the authorized key as 201, then sweeps |
| EnrollmentServer.Registry.RevokeNode | internal/app/coordinator_enrollment.go:331-368 | removes authorization, active node and pending handshakes of a node, whose history becomes 403 |
| EnrollmentRuns.PendingIsTruthful | internal/app/coordinator_enrollment.go:244-315 | in every run codes are distinct, no handshake is both approved and rejected, and retained history is 100, 200 or 403 exactly as the flags say |
| EnrollmentRuns.DecisionsPickTheSame | internal/app/coordinator_enrollment.go:231-241 | approve and reject find the same handshake in every map order |
| EnrollmentRuns.BoundsHold | internal/app/coordinator_enrollment.go:53-68 | at most 1024 pending, at most 10 per source, and active nodes are authorized |
| EnrollmentRuns.HistoryBound | internal/app/coordinator_nodes.go:374-385 | in every run a sweep leaves the history within its limit exactly if it was, or if every entry carries its ID |
| EnrollmentRuns.FinalStatusesStay | internal/app/coordinator_nodes.go:113-125 | history that says 201, 403 or 410 never says anything else |
| EnrollmentRuns.CompletedNeverPending | internal/app/coordinator_nodes.go:113-125 | a completed or expired request is never pending again |
| EnrollmentRuns.KeyChangesOnlyOpenly | internal/app/coordinator_enrollment.go:248-259 | a node's authorized key changes only by explicit replacement or after a revocation |
| EnrollmentKeys.KeyOfLastApproval | internal/app/coordinator_enrollment.go:253-260 | in every run a node is authorized with a key exactly if that is the key of the last handshake approved for it since its last revocation |
| Supervisor.Manager.OnePerInstance | internal/app/service_supervisor.go:29-80 | no instance ever has two unfinished workers |
| Supervisor.Manager.Stop | internal/app/service_supervisor.go:111-124 | cancels, and succeeds exactly if the worker finishes in time |
| Supervisor.Manager.Start | internal/app/service_supervisor.go:128-138 | a worker is started only into a free place of the map |
| Supervisor.Manager.StopUnwanted | internal/app/service_supervisor.go:42-48 | a worker without a profile goes exactly if its stop is in time; all others stay |
| Supervisor.Manager.Apply | internal/app/service_supervisor.go:49-72 | each profile gets what it asks for unless the stop it needs is late; a running worker of its signature is left alone |
| Supervisor.Manager.Renew | internal/app/service_supervisor.go:63-72 | a running worker of the same signature is kept; any other is replaced, but only after it stopped |
| Supervisor.Manager.Reconcile | internal/app/service_supervisor.go:32-80 | with every stop in time and a live context the workers match the enabled valid profiles by signature; otherwise only late stops stand in the way; invalid profiles keep their workers; a scan with nothing to do does nothing |
| Supervisor.MatchedIsQuiet | internal/app/service_supervisor.go:60-62 | workers that match and have not finished leave the next scan nothing to do |
| Supervisor.Manager.ScanTwice | internal/app/service_supervisor.go:81-99 | a repeated scan of unchanged profiles neither starts nor stops anything |
| Supervisor.Manager.CancelAll | internal/app/service_supervisor.go:88-92 | at shutdown every unfinished worker is cancelled |
| RateLimiter.Limiter.AllowRequest | internal/app/coordinator_http.go:95-107 | decides on the table after a sweep of old windows, only above 4096 keys |
| RateLimiter.Limiter.AllowRequestLocked | internal/app/coordinator_http.go:109-120 | counts in the current window; a refusal changes nothing |
| RateLimiter.SweepInvisible | internal/app/coordinator_http.go:99-105 | for non-decreasing times the sweep never changes a decision |
| RateLimiter.TwiceTheLimit | internal/app/coordinator_http.go:109-120 | any closed minute admits at most twice the limit of a key |
| RateLimiter.RefusedOnlyWhenFull | internal/app/coordinator_http.go:114-116 | a request is refused only when the last minute admitted the limit |
| RateLimiter.BoundIsReached | internal/app/coordinator_http.go:111-113 | two requests at the ends of a closed minute pass a limit of one |
| Nonces.Guard.VerifySignature | internal/app/coordinator_nodes.go:264-291 | accepts fresh, signed requests whose nonce is not held, and then holds it for two minutes |
| Nonces.Guard.VerifyHandshake | internal/app/relay_server.go:325-368 | the relay decides alike, although it sweeps first |
| Nonces.AcceptedExactly | internal/app/coordinator_nodes.go:264-291 | with sweeps anywhere between, a request is accepted exactly if it is signed, has a nonce, is stamped within two minutes either way, and no acceptance of its nonce lies less than two minutes back |
| Nonces.RefusedLeavesTable | internal/app/coordinator_nodes.go:270-289 | a refused request leaves the table as it was |
| Nonces.AcceptancesApart | internal/app/coordinator_nodes.go:274-289 | two acceptances of one nonce are at least two minutes apart, with sweeps anywhere between |
| Nonces.AcceptedOnce | internal/app/coordinator_nodes.go:270-289 | a request stamped strictly before its arrival is accepted at most once |
| Nonces.ReplayPossible | internal/app/coordinator_nodes.go:270-289 | a request can be accepted again exactly if it was not stamped before its arrival |
| Routes.ListRelays | internal/app/relay_pull.go:198-216 | exactly the eligible relays in order of priority and ID |
| Routes.ResolveRoute | internal/app/relay_pull.go:171-218 | the first node and service of the given names with that relay list, or the error that applies |
| Routes.RelayListUnique | internal/app/relay_pull.go:210-215 | the relay list does not depend on the order of the cached peers |
| Routes.ResolvedMeans | internal/app/relay_pull.go:171-218 | a resolved route leads to a known node and a service it publishes, over exactly its segment's relays (its upstream for a subnode) by priority and ID |
| Routes.FailedMeans | internal/app/relay_pull.go:171-218 | and what is missing when there is none |
| DialOrder.SmartPull.WalkRelays | internal/app/relay_pull.go:89-104 | tries the candidates that are not cooling until one works, cooling the others |
| DialOrder.SmartPull.Handle | internal/app/relay_pull.go:52-111 | the dials of a connection are those of the plan |
| DialOrder.WalkShape | internal/app/relay_pull.go:89-104 | each reached, non-cooling candidate is dialed once, in order, and only the last dial can have worked |
| DialOrder.RelaysInOrder | internal/app/relay_pull.go:89-104 | relays are dialed by priority and ID |
| DialOrder.FailureCools | internal/app/relay_pull.go:159-169 | a failed endpoint cools for 30 seconds |
| DialOrder.CooledNotDialed | internal/app/relay_pull.go:90-92 | and no candidate sharing it is dialed in that time |
| DialOrder.SubnodeSource | internal/app/relay_pull.go:64-78 | a subnode dials its own upstream and nothing else |
| DialOrder.SubnodeTarget | internal/app/relay_pull.go:105-108 | a subnode target yields only dials to its registered upstream |
| DialOrder.OrdinaryTarget | internal/app/relay_pull.go:79-110 | a direct try exactly in the same segment and first, then relays in order, then reverse, and nothing after a success |
| DialOrder.GivenUp | internal/app/relay_pull.go:89-110 | a target is given up only when every relay was tried or cooling and the reverse path was tried if there is one |
| DialOrder.RelayTarget | internal/app/relay_pull.go:79-110 | the dials for a relay that is itself the target: a direct try in its segment, then the relay unless it is cooling, then the reverse path |
| DialOrder.DialedMeans | internal/app/relay_pull.go:89-104 | a relay is dialed exactly if nothing before it worked and its endpoint is not marked beyond the instant of the look |
| DialOrder.MarksMean | internal/app/relay_pull.go:159-169 | every mark was there before, is another connection's, or lies 30 seconds after a dial of that endpoint that failed |

## Left out

- Coordinator crash recovery: `discoverNodes` sweeps without writing the state file, so counters and revisions seen in memory need not survive; runs are crash-free at the coordinator.
- Revocation inside discovery runs, because coherence is false with it (`DiscoveryTheorems.RevocationBreaksCoherence`).
- Freshness of cached leases: a cache is compared up to lease ends.
- Reachability of subnode targets: only the allowed dials are stated.
- Handoff.StepOk: one relay that does not crash; workers that dial other relays use other brokers. The coordinator's record of a decision is in the delivery runs; here sending it is the last step of a worker.
- Discovery runs save a command's reply only if it is not older than what the worker relies on; the source has no such guard (`LateReply`).
- EnrollmentServer.Registry.Cleanup: the node loop inside it is the sweep function that NodeTableServer proves its loop against.
- ConnectionServer.Registry.StatusPass: the check for an empty request ID, made once before the loop.
- NodeTableServer.Directory.UpdateNode: replies share slices with the stored nodes in the source, so a sweep can change a reply that is still being encoded; values here are not shared.
- The wrap-around of 64-bit counters, and the width of durations.
- The audit log, polling and listing of handshakes, secrets and their hashes.
- The restart delay of `superviseProfile` and the logging of rejected profiles.
- The relay's forward service branch, coordinator tunnels, and the connector cache.
- TLS, pins, Ed25519, SHA-256, VLESS, sockets, JSON, file formats, systemd, the CLI and its texts; validation of profiles, hosts and ports.
