# Messaging server: a verified model of its queues and indexes

The server delivers events to devices through a database-backed outbox, wakes up connections through an in-process bus, and keeps several derived tables: usage counters, a redelivery queue of user events, offset cursors, friendships and direct rooms. Each of these is an index or a cache that has to agree with something simpler. This project writes down the simpler thing, models the code that maintains the index, and proves that the two agree over every run.

## How it is organised

- `OutboxTypes`, `OutboxSteps`: the two outbox tables as values, and what append, claim, ack, drop and purge each do to them.
- `OutboxInvariant`, `OutboxRuns`: what every step keeps, and runs of any interleaving of those steps. A janitor scan and the drops it leads to are separate steps. Ties in `ORDER BY created_at` are left to the database: a step carries the answer it chose. A claim takes any of the due heads, since it skips segments that others have locked. Every step has a clock reading of its own, and the readings may be in any order.
- `OutboxHistory`, `OutboxQueue`, `OutboxAcks`, `OutboxDrain`: theorems about runs: order, the cached head, retries, conservation, termination; a segment as a FIFO queue; acknowledgements that commute; repeated dispatch.
- `OutboxWitness`: concrete runs for what does not hold of every run.
- `OutboxPromises`: the effect of each operation said again of single rows and pointers, by their columns alone: which heads a claim takes up, which queue an event goes to, what an ack, a drop, a purge and a listing leave in and out.
- `OutboxStore`, `OutboxService`: the repository and the service as classes. Each method is proved to have exactly the effect `OutboxSteps` describes, and the one `OutboxPromises` spells out. A dispatch is also proved to be a claim and its notifications in the system of `Wakeups`.
- `Connection`, `EventBus`, `Wakeups`: one connection's `sentEvents` cache beside the running workers; the one-slot wake-up bus; dispatcher, bus and push loop interleaved.
- `UserEvents`, `Calendar`, `Usage`, `Pagination`, `Friends`, `DirectRooms`: the derived tables, each with its class or functions and its own runs.
- `Selection` (`ORDER BY … LIMIT n`, ties free), `Sums`, `Keys`, `Text`, `Wrappers`: shared notions.

A repository operation is one atomic step, as its transaction and its row locks make it, with these exceptions, where the code does leave room for others and the model lets them in: the janitor's scan and its drops, listing and marking user events, checking and writing a friend request, the friendship test, the lookup and the transaction of a direct room, the two listings of a pull, and a claim and its notifications.

## What turned out not to hold as one would hope

- An ack that reads an older clock than an ack before it can find a row alive again that the earlier one skipped as expired, and move the segment's head back to it. `HeadsMoveForwardExactly` says that heads never move back in a run if and only if no ack revives a row in this way. What a run keeps all the same is that heads agree with a scan and that stale drops leave nothing deliverable (`HeadAgreesWithScan`, `StaleJanitorIsHarmless`).
- Claims then need not be in order: `OlderReadingReorders` is a run in which a younger event is delivered before an older one. `InOrderExactly` says that claims stay in order, and heads at or past what was claimed, if and only if no ack revives a row behind an event already claimed.
- A janitor's drop decided earlier can then spare a lease and clear its pointer: `OlderReadingStrandsALease` is a run that ends with two events of one segment in one listing. `LeasesAreSingleExactly` says that leases stay single if and only if no drop starts past its segment's leased head, and `NoLeaseIsStranded` that none does unless an ack revived a row older than what a scan saw (`TicketsBehindExactly`).
- A segment is then no longer the queue it was: the head can be a row that had left the queue as expired (`OlderReadingReorders`). `SegmentIsAQueueExactly` says that the tables show the queue, all along, if and only if no ack hands the segment to such a row.
- With acks in the order of their readings none of this happens (`AcksInOrderKeepEverything`, `AcksInOrderHandToNoneExpired`).
- Two overlapping event pulls can deliver an event twice at one instant (`OverlappingPullsRepeat`). `SpacedExactlyWithoutClash` says exactly when deliveries stay a cooldown apart. A delivery can follow the event's ack (`DeliveryAfterAck`), exactly when its listing was open when the event went (`DeliveredAfterGoneExactly`).
- A pull reads the clock, and the list it then fetches may hold a lease made after that reading. If the previous lease was still cached at the reading, the new one is withheld (`RetryIsWithheld`). `PullWithholdsExactly` says which listed events a pull sends.
- A decline or cancel that passed its check can overwrite an accept that came in between, which leaves a friendship whose request reads declined (`LateDeclineOrphansAnEdge`). `JustifiedExactly` and `RequestsSettleOnce` say over which runs that happens.
- Once a direct room is deleted, its row keeps the pair's UNIQUE key, so the two users can never open another (`DeletionEndsThePair`). Short of that they always get an answer (`AdmittedIsAnsweredExactly`).
- Weeks and months do not nest, so week counters do not add up to months (`NestsExactly`).

## Model

| member | source | states |
|---|---|---|
| OutboxHistory.InOrderExactly | internal/repository/postgres/auth_repository_outbox.go:69-155 | over any run, claims stay in order and heads at or past what was claimed, if and only if no ack revives a row behind a claimed event |
| OutboxHistory.ClaimsAreFifo | internal/repository/postgres/auth_repository_outbox.go:69-155 | while no ack does so, the claims of one device and segment, retries included, never go back to an older event |
| OutboxHistory.HeadAgreesWithScan | internal/repository/postgres/auth_repository_outbox.go:50-62 | in any run, from the latest ack reading on, a cached head is a live row of its segment no deliverable row is older than, and an empty head means every live row left there has expired |
| OutboxHistory.LeasesAreSingleExactly | internal/repository/postgres/auth_repository_outbox.go:326-345 | over any run, leases, heads and in-flight rows match in every segment if and only if no drop starts past its segment's leased head |
| OutboxHistory.TicketsBehindExactly | internal/repository/postgres/auth_repository_outbox.go:271-302 | over any run, no head falls behind what a scan saw of its segment if and only if no ack revives a row older than that |
| OutboxHistory.NoLeaseIsStranded | internal/repository/postgres/auth_repository_outbox.go:326-345 | while no ack does so, no drop starts past a leased head, and leases stay single |
| OutboxHistory.AcksInOrderKeepEverything | internal/repository/postgres/auth_repository_outbox.go:186-269 | with acks in the order of their readings, claims are in order, heads never move back or behind what a scan saw, and leases are single |
| OutboxHistory.OneInFlightPerSegment | internal/repository/postgres/auth_repository_outbox.go:129-152 | while no ack revives a row older than what a scan saw, the in-flight pointer is e exactly when e is an in-flight row of the segment, and then e is the head |
| OutboxHistory.ListInflightHasOnePerSegment | internal/repository/postgres/auth_repository_outbox.go:157-184 | and no listing holds two events of one segment |
| OutboxHistory.HeadMovesBackExactly | internal/repository/postgres/auth_repository_outbox.go:240-267 | a step of a run moves a segment's head back if and only if it is an ack of that head that revives an older row |
| OutboxHistory.HeadsMoveForwardExactly | internal/repository/postgres/auth_repository_outbox.go:240-267 | over any run, no head ever moves back to an older event if and only if no ack revives a row |
| OutboxWitness.OlderReadingReorders | internal/repository/postgres/auth_repository_outbox.go:240-267 | a run whose second ack reads an older clock, hands the segment to an expired row, and whose claims are then out of order |
| OutboxWitness.OlderReadingStrandsALease | internal/repository/postgres/auth_repository_outbox.go:326-345 | a run in which a stale drop after such an ack spares a lease, and a listing that then holds two events of one segment |
| OutboxHistory.HeadStaysPastTicketExactly | internal/repository/postgres/auth_repository_outbox.go:271-302 | between a scan and its drop, the head stays at or past what the scan saw if and only if no ack in between revives an older row |
| OutboxHistory.StaleJanitorIsHarmless | internal/repository/postgres/auth_repository_outbox.go:271-302 | in any run, a drop decided by a scan and carried out any number of steps later keeps what every run keeps and leaves the segment with no head and nothing deliverable; it keeps leases single exactly when it starts past no leased head, and it does not unless an ack in between revived an older row |
| OutboxHistory.RetryArithmetic | internal/repository/postgres/auth_repository_outbox.go:119-139 | attempts stay within the limit, n attempts take at least n - 1 timeouts, the last one before expiry, and the lease ends one timeout after it |
| OutboxHistory.ClaimsOfOneEventAreApart | internal/repository/postgres/auth_repository_outbox.go:124-139 | two claims of one event in a run are different attempts at least a timeout apart |
| OutboxHistory.PhasesMoveForward | internal/repository/postgres/auth_repository_outbox.go:208-218 | Acked is left only by a purge, Dropped only by an ack or a purge, purged for good, and nothing becomes pending again |
| OutboxHistory.AppendedIsKeptOrPurged | internal/repository/postgres/auth_repository_outbox.go:304-324 | rows ever appended are as many as rows stored plus rows purged |
| OutboxHistory.AppendReachesEveryTarget | internal/repository/postgres/auth_repository_outbox.go:31-52 | an append turns each target device's unknown id into a pending row of that device and segment |
| OutboxHistory.PurgeTakesOnlyRetired | internal/repository/postgres/auth_repository_outbox.go:304-315 | a purge takes only acked or dropped rows past their retention, none of which any segment points at |
| OutboxHistory.StepSpends | internal/repository/postgres/auth_repository_outbox.go:119-153 | each claimed, acked or dropped live row takes at least one unit off the sum of maxAttempts - attempts + 1 |
| OutboxHistory.DeliveriesAreBounded | internal/repository/postgres/auth_repository_outbox.go:119-153 | without appends, the deliveries still to come are bounded by that sum |
| OutboxRuns.RunIsSound | internal/repository/postgres/auth_repository_outbox.go:17-345 | in every state of every run heads are live rows of their segment and agree with a scan, only heads are pointed at as leased, stored rows obey the retry arithmetic, and what a scan handed out still spares only expired rows |
| OutboxRuns.HeadStaysExactly | internal/repository/postgres/auth_repository_outbox.go:240-267 | a head at or past a stamp stays there in every step but an ack that revives a row older than the stamp |
| OutboxInvariant.AppendKeepsInv | internal/repository/postgres/auth_repository_outbox.go:31-65 | a fresh append that is not backdated keeps heads owned, current and the only ones pointed at |
| OutboxInvariant.ClaimKeepsInv | internal/repository/postgres/auth_repository_outbox.go:119-155 | so does a claim of any batch of due heads |
| OutboxInvariant.AckKeepsInv | internal/repository/postgres/auth_repository_outbox.go:212-268 | so does an ack, whatever it names, whatever clock it reads and whichever successor the database finds |
| OutboxInvariant.DropKeepsInv | internal/repository/postgres/auth_repository_outbox.go:326-345 | so does dropping a tail from any stamp before which all has expired, and it leaves nothing deliverable |
| OutboxInvariant.DropKeepsWellFormedExactly | internal/repository/postgres/auth_repository_outbox.go:326-345 | a drop leaves an in-flight row without a pointer if and only if it starts past the leased head |
| OutboxQueue.StepIsQueueStepExactly | internal/repository/postgres/auth_repository_outbox.go:17-345 | with strictly growing stamps, each table step is the matching step of a plain FIFO queue (append enqueues, claim peeks or clears, ack dequeues or removes, drop clears) if and only if it does not hand the segment to an expired row |
| OutboxQueue.SegmentIsAQueueExactly | internal/repository/postgres/auth_repository_outbox.go:17-345 | over any run with such stamps, the tables show the queue that machine arrives at, all along, if and only if no ack hands the segment to an expired row |
| OutboxQueue.SegmentIsAQueue | internal/repository/postgres/auth_repository_outbox.go:17-345 | so after any run without such an ack the tables show exactly that queue |
| OutboxQueue.AcksInOrderHandToNoneExpired | internal/repository/postgres/auth_repository_outbox.go:240-249 | acks in the order of their readings hand no segment to an expired row |
| OutboxQueue.QueueIsUnique | internal/repository/postgres/auth_repository_outbox.go:240-249 | a segment's tables show one queue only |
| OutboxQueue.DeliveriesArePeeks | internal/repository/postgres/auth_repository_outbox.go:83-155 | whatever such a run delivers stood at the front of its segment's queue |
| OutboxAcks.MissesChangeNothing | internal/repository/postgres/auth_repository_outbox.go:191-210 | an ack changes nothing if and only if its id is unknown, its device or segment wrong, or its row already acked |
| OutboxAcks.AckIsIdempotent | internal/repository/postgres/auth_repository_outbox.go:208-210 | the same ack again, at any time, changes nothing more |
| OutboxAcks.AcksCommute | internal/repository/postgres/auth_repository_outbox.go:186-269 | two acks at one instant leave the same tables in either order, given distinct stamps within the segments they touch |
| OutboxDrain.ClaimShrinksDue | internal/repository/postgres/auth_repository_outbox.go:79-155 | a claim takes exactly its batch off the due heads and leaves the other due heads as they were |
| OutboxDrain.DispatchesTakeOldestFirst | internal/application/outbox/service.go:103-120 | n dispatches at one instant claim the n * batch oldest due heads, oldest first, none twice, and leave the rest due |
| OutboxDrain.DrainedAfterEnoughDispatches | internal/application/outbox/service.go:103-120 | nothing is left due if and only if the dispatches had room for every due head |
| OutboxDrain.OnlyWaitingHeadsRemain | internal/application/outbox/service.go:103-120 | dispatches at one instant with room for every segment leave only heads that have not expired, are not pending past their send time, and are not past their lease |
| OutboxPromises.ClaimWithRoom | internal/repository/postgres/auth_repository_outbox.go:79-152 | a claim that did not fill its batch, or could take every segment, gives up each head that is expired, or due with its attempts used up, together with all behind it, leases each other head that is due or past its lease for one timeout from the reading on, and leaves every other head alone |
| OutboxPromises.ClaimInPlainTerms | internal/repository/postgres/auth_repository_outbox.go:79-152 | whatever room it has, a claim takes up only such heads, the oldest first and each once, and changes no row but those it leases and those behind a head it gives up |
| OutboxPromises.EventsTellOfLeases | internal/repository/postgres/auth_repository_outbox.go:124-155 | it returns one event for each head it leased, oldest first, with the columns of the row as it left it |
| OutboxPromises.EveryEventBelongs | internal/repository/postgres/auth_repository_outbox.go:382-391 | every event has exactly one queue: the text its payload gives as room, else as chat, else as segment, if that is not all white space, and else the queue of its type |
| OutboxPromises.AppendInPlainTerms | internal/repository/postgres/auth_repository_outbox.go:31-65 | every target device gets a pending row with the event's stamps in that queue, unless it has a row for the event; the queue keeps its head, or gets this row as its head; nothing else changes |
| OutboxPromises.OneRoomIsOneQueue | internal/repository/postgres/auth_repository_outbox.go:382-391 | two events that name one room are in one queue, whatever their types, and the later one is not its head |
| OutboxPromises.AckHitsAppended | internal/repository/postgres/auth_repository_outbox.go:191-218 | an ack that names the device and the room settles the row just appended |
| OutboxPromises.AckInPlainTerms | internal/repository/postgres/auth_repository_outbox.go:191-268 | an ack settles its row, and moves the head only from that row, to the oldest other row of the segment still to be delivered and not expired, if there is one |
| OutboxPromises.DropWithRoom | internal/repository/postgres/auth_repository_outbox.go:271-302 | a janitor round with room leaves no expired head: each is dropped and its segment has neither head nor lease |
| OutboxPromises.DropInPlainTerms | internal/repository/postgres/auth_repository_outbox.go:271-302 | whatever room it has, it takes only expired heads, oldest first, and drops only them and what is behind them |
| OutboxPromises.PurgeInPlainTerms | internal/repository/postgres/auth_repository_outbox.go:304-315 | a purge deletes rows of the status whose ack, or else expiry, is no later than the cut-off, oldest first, and leaves one only for want of room |
| OutboxPromises.ListInPlainTerms | internal/repository/postgres/auth_repository_outbox.go:157-184 | a listing tells the device's rows leased beyond the reading, each once, oldest first, and leaves one out only for want of room |
| Selection.RoundsAreOneSelection | internal/repository/postgres/auth_repository_outbox.go:79-91 | repeated ORDER BY/LIMIT answers, each from what the earlier ones left, make up one answer with the total limit |
| Selection.SelectionInPlainTerms | internal/repository/postgres/auth_repository_outbox.go:79-91 | an ORDER BY/LIMIT answer has members of the pool, each once, in order; what it leaves out is no earlier, and is left out only when the limit is reached |
| OutboxStore.Store.AppendOutbox | internal/repository/postgres/auth_repository_outbox.go:31-66 | the loop over target devices has the whole-table effect of an append: one row per device in the event's queue, a head for a queue that had none, nothing else |
| OutboxStore.Store.ClaimPending | internal/repository/postgres/auth_repository_outbox.go:69-155 | the loop over candidates leases or drops each by what was read of it; the oldest heads that are expired, due or overdue are chosen, all of them if there is room, and the events tell of the leases |
| OutboxStore.Store.ListInflight | internal/repository/postgres/auth_repository_outbox.go:157-184 | returns the device's earliest leases still in force, in order, all of them if there is room |
| OutboxStore.Store.AcknowledgeOutbox | internal/repository/postgres/auth_repository_outbox.go:186-269 | settles the row and, only for the head, moves the head to an earliest successor |
| OutboxStore.Store.DropSegmentTail | internal/repository/postgres/auth_repository_outbox.go:326-345 | drops the live rows from a stamp on and clears the segment |
| OutboxStore.Store.DropExpiredHeads | internal/repository/postgres/auth_repository_outbox.go:271-302 | scan and drops, uninterrupted: every chosen segment loses its tail and its head, and with room every expired head goes |
| OutboxStore.Store.DeleteTerminal | internal/repository/postgres/auth_repository_outbox.go:304-324 | deletes the oldest rows past retention within the limit, and no others |
| OutboxService.Service.constructor | internal/application/outbox/service.go:72-101 | each of the eight settings that is positive is kept in its own place and each other one replaced by its own default |
| OutboxService.Service.DispatchOnce | internal/application/outbox/service.go:103-120 | one claim, then one notification per returned event under its device, in order; every listener of a device whose row was leased has a wake-up outstanding; and in any system of workers, bus and push loop with these tables and this log the call is one claim followed by a notification for each new position of the claim log |
| OutboxService.Service.ListInflight | internal/application/outbox/service.go:122-130 | rejects an empty device, otherwise lists with the default limit for a missing one |
| OutboxService.Service.Acknowledge | internal/application/outbox/service.go:132-148 | rejects a nil id or empty device without effect; otherwise acks and wakes the device even when nothing changed |
| OutboxService.Service.SweepOnce | internal/application/outbox/service.go:170-181 | one janitor round: expired heads, then acked, then dropped rows, each with its own cut-off |
| OutboxService.ClientConnection.Purge | internal/delivery/clientrpc/handler.go:578-582 | forgets exactly the cache entries that have run out |
| OutboxService.ClientConnection.Emit | internal/delivery/clientrpc/handler.go:599-614 | sends, in order, exactly the listed events no lease in the cache holds back, and remembers the leases sent and nothing else new |
| OutboxService.PullOutboxPackets | internal/delivery/clientrpc/handler.go:570-615 | one uninterrupted pull: dispatches once, and announces that claim, if and only if nothing was in flight, and sends what the listing and the purged cache call for |
| Connection.SentOncePerClaim | internal/delivery/clientrpc/handler.go:599-613 | with workers running in between, one connection sends two copies of an event only for different attempts, in order, within the limit |
| Connection.SentAtMostMaxAttempts | internal/delivery/clientrpc/handler.go:599-613 | one connection never sends an event more than maxAttempts times |
| Connection.FutureEntryIsCurrentLease | internal/delivery/clientrpc/handler.go:601-612 | a cache entry later than the row's last claim is the row's current lease |
| Connection.PullWithholdsExactly | internal/delivery/clientrpc/handler.go:577-614 | whatever the list's reading, a pull sends a listed event if and only if this connection has sent no copy leased beyond the pull's own reading |
| OutboxWitness.RetryIsWithheld | internal/delivery/clientrpc/handler.go:577-603 | a run in which a pull lists a retried lease and sends nothing |
| Connection.PullSendsTheUnsent | internal/delivery/clientrpc/handler.go:577-614 | when the two readings agree and there is room for all rows in flight, a pull sends an event in flight if and only if it has not sent it in this lease |
| EventBus.Bus.SubscribeKey | internal/platform/eventbus/bus.go:34-45 | a new id with an empty slot listens to the key, and no other slot changes |
| EventBus.Bus.Unsubscribe | internal/platform/eventbus/bus.go:47-59 | the id stops listening; a second call has no effect |
| EventBus.Bus.NotifyKey | internal/platform/eventbus/bus.go:67-83 | fills the slot of every subscriber of the key and no other, and never waits; slots stay full exactly when the log says a wake-up is outstanding |
| EventBus.Bus.TryReceive | internal/delivery/clientrpc/handler.go:295-300 | a wait goes on at once if and only if a wake-up is outstanding, and settles it |
| EventBus.NotificationWaits | internal/platform/eventbus/bus.go:77-82 | a notification stays outstanding through anything but the subscriber's own receive |
| EventBus.ReceiveSettles | internal/platform/eventbus/bus.go:77-82 | after a receive nothing is outstanding until the next notification |
| EventBus.ListensExactly | internal/platform/eventbus/bus.go:34-59 | an id listens to a key if and only if it subscribed to it and neither ended that nor subscribed again since |
| EventBus.OutstandingExactly | internal/platform/eventbus/bus.go:67-83 | a wake-up is outstanding if and only if the key the id listened to at the time was notified and the id has not received since |
| Wakeups.NoLostWakeup | internal/delivery/clientrpc/handler.go:259-302 | an event claimed and notified after the loop's last pull keeps the loop's next wait from blocking, over every interleaving |
| Wakeups.BlockedMeansUnannounced | internal/delivery/clientrpc/handler.go:259-302 | while the loop is blocked, each claim it has not read is one whose notification is still to be sent |
| Wakeups.DispatchIsMoves | internal/application/outbox/service.go:103-120 | claiming and then notifying each returned event's device is, in any system, a claim followed by a notification for each position it added to the claim log |
| Wakeups.DispatchAnnounces | internal/application/outbox/service.go:113-118 | whoever listens to the device of a row that a claim put in flight has a wake-up outstanding once its events have been notified |
| UserEvents.EventStore.Append | internal/repository/postgres/auth_repository.go:187-202 | inserts an undelivered event; a second insert of an id fails |
| UserEvents.EventStore.ListPending | internal/repository/postgres/auth_repository.go:209-253 | the user's earliest events that are available, unexpired and undelivered or past the cooldown, within the limit, in order, all of them if there is room |
| UserEvents.EventStore.MarkDelivered | internal/repository/postgres/auth_repository.go:255-268 | stamps the named rows that are still there and nothing else |
| UserEvents.EventStore.Acknowledge | internal/repository/postgres/auth_repository.go:270-279 | removes the event if it is the user's |
| UserEvents.EventStore.DeleteExpired | internal/repository/postgres/auth_repository.go:281-291 | removes exactly the expired events and counts them |
| UserEvents.PullEvents | internal/application/auth/service.go:317-348 | an uninterrupted pull returns such a listing under the clamped limit, marks those events as delivered now, and leaves every other row, and every other user's, as it was |
| UserEvents.PullsDeliverAllInOrder | internal/application/auth/service.go:317-348 | repeated pulls at one instant return each eligible event once, oldest first, and all of them if and only if the limits add up to enough |
| UserEvents.DeliveriesAreOwn | internal/repository/postgres/auth_repository.go:209-253 | however listings, marks, acks and expiry interleave, a user is only ever given events inserted for that user, available and unexpired by the reading of the listing |
| UserEvents.DeliveriesAreSpaced | internal/application/auth/service.go:327-345 | when no listing takes an event another is about to mark, deliveries of one event are a cooldown apart over any run |
| UserEvents.SpacedExactlyWithoutClash | internal/application/auth/service.go:327-345 | over any run, deliveries of one event are a cooldown apart if and only if no listing is marked that was open while another one, sharing an event and read less than a cooldown before it or later, was marked |
| UserEvents.RunTellsLastMark | internal/repository/postgres/auth_repository.go:255-268 | the stored delivery stamp is the event's last delivery in every reachable state |
| UserEvents.OverlappingPullsRepeat | internal/application/auth/service.go:327-345 | a run in which two overlapping pulls deliver one event twice at one instant |
| UserEvents.NoListingAfterGone | internal/repository/postgres/auth_repository.go:270-291 | no listing takes an event after its ack or its expiry |
| UserEvents.DeliveredAfterGoneExactly | internal/application/auth/service.go:327-345 | a mark delivers an event that has gone if and only if its listing was open when it went |
| UserEvents.DeliveryAfterAck | internal/application/auth/service.go:327-345 | a run in which an event is delivered after its ack |
| Calendar.TruncateIsPeriodStart | internal/repository/postgres/client_repository.go:921-928 | truncation finds the start of the one minute, hour, day, Monday week or month an instant lies in |
| Calendar.MonthsAreCivil | internal/repository/postgres/client_repository.go:921-928 | the months counted from January 1970 start on the days a closed formula of the proleptic Gregorian calendar gives, in every year |
| Calendar.YearLengths | internal/repository/postgres/client_repository.go:921-928 | by that formula a year has 366 days exactly if it is divisible by 4 and not by 100, or by 400, and 400 years have 146097 days |
| Calendar.MonthBucketIsCivil | internal/repository/postgres/client_repository.go:921-928 | an instant's month bucket starts at the first midnight of a civil month if and only if the instant lies in that month |
| Calendar.SmallBucketsInMicroseconds | internal/repository/postgres/client_repository.go:921-928 | minute, hour and day buckets are whole multiples of their length, and weeks start four days after the Thursday 1970-01-01 or whole weeks from there |
| Calendar.TruncationNests | internal/repository/postgres/client_repository.go:921-928 | truncating to a fine period first does not change the coarse one |
| Calendar.NestsExactly | internal/repository/postgres/client_repository.go:921-928 | and it does so for exactly those pairs of periods; weeks and months are not among them, either way |
| Usage.UsageStore.RecordUserUsage | internal/repository/postgres/client_repository.go:910-946 | adds the amounts to all six counters, or to none when it is all zero, has no profile, is negative or would overflow |
| Usage.OneUse | internal/repository/postgres/client_repository.go:910-946 | an accepted use adds its amounts to the counters of its user and instant and leaves the others alone, and it is accepted if and only if every sum is within BIGINT and not negative |
| Usage.UsageStore.GetUserUsageStats | internal/repository/postgres/client_repository.go:948-1001 | reads, each into its own place, the six counters of the current minute, hour, day, week from Monday, civil month and all time, zero where there is none |
| Usage.CountersAreLogSums | internal/repository/postgres/client_repository.go:910-946 | after any run a counter exists for exactly the buckets that were recorded into, and is the sum of the records that fall into it |
| Usage.StatsFilterTheLog | internal/repository/postgres/client_repository.go:948-1001 | reading a counter equals adding up the log filtered to the user and the period |
| Usage.BucketsAddUp | internal/repository/postgres/client_repository.go:910-946 | fine counters inside a coarse bucket add up to it: minutes to hours, hours to days, days to weeks and months, all to all time |
| Pagination.CursorRoundTrip | internal/application/clientapi/pagination.go:17-37 | decoding an encoded offset gives it back, for every offset an int holds |
| Pagination.DecodeEncode | internal/application/clientapi/pagination.go:22-37 | unpadded base64url (section 5 of RFC 4648) of any bytes decodes to those bytes |
| Pagination.EncodeIsBitsInOrder | internal/application/clientapi/pagination.go:35-37 | the letters hold the bits of the bytes in order, six to a letter, padded with zeros to a whole letter |
| Pagination.LettersInOrder | internal/application/clientapi/pagination.go:35-37 | the alphabet is A to Z, a to z, 0 to 9, hyphen and underscore, in this order |
| Pagination.DecodesExactly | internal/application/clientapi/pagination.go:22-25 | a text without line breaks is accepted if and only if it has letters of the alphabet only and no group of one letter |
| Pagination.AtoiOfItoa | internal/application/clientapi/pagination.go:27-36 | decimal text of a number reads back as that number |
| Pagination.AtoiOfSigned | internal/application/clientapi/pagination.go:27-30 | a leading sign is read, and a number an int does not hold is refused |
| Pagination.AtoiRefuses | internal/application/clientapi/pagination.go:27-30 | any other character than a digit is refused |
| Pagination.NegativeIsRefused | internal/application/clientapi/pagination.go:27-30 | a cursor of a negative offset is refused |
| Pagination.NormalizeLimit | internal/application/clientapi/pagination.go:10-15 | a page size between 1 and 200 is kept and any other replaced by the default |
| Pagination.PageIsNextStretch | internal/application/clientapi/service.go:391-405 | one page is the next stretch of the list, as long as the limit asked for or its default, its cursor stands right behind it, and a page without cursor is the rest and no longer than that |
| Pagination.PagePastTheEnd | internal/application/clientapi/service.go:391-405 | a cursor at or behind the end gives an empty page without cursor, and a page is refused if and only if its cursor is |
| Pagination.WalkIsWholeList | internal/application/clientapi/pagination.go:10-44 | following cursors from the empty one, with any limits, gives the whole list without gap or repeat, and ends |
| Keys.OrderedPairIsCanonical | internal/application/clientapi/service.go:1041-1046 | two ordered pairs are equal if and only if they are of the same two keys |
| Keys.PairIsSorted | internal/application/clientapi/service.go:1041-1046 | an ordered pair is its two keys, the smaller first |
| Keys.AtMostTotal | internal/repository/postgres/client_repository.go:1026-1031 | lexicographic byte order is total |
| Keys.AtMostAntisymmetric | internal/repository/postgres/client_repository.go:1026-1031 | lexicographic byte order is antisymmetric |
| Keys.AtMostIsLexicographic | internal/repository/postgres/client_repository.go:1026-1031 | a key is at most another if it is a prefix of it or has the smaller byte where they first differ |
| Friends.FriendStore.SendFriendRequest | internal/application/clientapi/service.go:426-444 | inserts a pending request unless a key has the wrong length or the id is taken |
| Friends.FriendStore.UpdateFriendRequestState | internal/repository/postgres/client_repository.go:444-461 | unknown, not a party, no longer pending, or updated, in that order of tests |
| Friends.FriendStore.AcceptFriendRequest | internal/application/clientapi/service.go:446-467 | either party, and nobody else, may accept a pending request, which adds both edges |
| Friends.FriendStore.DeclineFriendRequest | internal/application/clientapi/service.go:469-477 | either party may decline a pending request |
| Friends.FriendStore.CancelFriendRequest | internal/application/clientapi/service.go:479-487 | either party may cancel a pending request |
| Friends.FriendStore.CreateFriendPair | internal/repository/postgres/client_repository.go:499-506 | both edges are there afterwards, existing ones untouched |
| Friends.FriendStore.RemoveFriend | internal/repository/postgres/client_repository.go:434-437 | both edges go, whoever removes |
| Friends.FriendStore.DeleteAccount | internal/repository/postgres/client_repository.go:96-116 | the account's edges and requests go |
| Friends.FriendStore.AreFriends | internal/repository/postgres/client_repository.go:390-407 | answers the self-join |
| Friends.EdgesStaySymmetric | internal/repository/postgres/client_repository.go:499-506 | friendship is mutual in every reachable state, however checks and writes interleave |
| Friends.AreFriendsIsOneLookup | internal/repository/postgres/client_repository.go:390-407 | in every reachable state the self-join is one lookup, whichever of the two asks |
| Friends.JustifiedExactly | internal/repository/postgres/client_repository.go:444-461 | over any run, every edge always rests on an accepted request between the two if and only if no write takes the last one back |
| Friends.FriendshipIsJustified | internal/application/clientapi/service.go:446-487 | while no write comes late, every edge rests on an accepted request between the two |
| Friends.UninterruptedCallsAreUndisturbed | internal/application/clientapi/service.go:446-487 | no write comes late when each call checks and writes in one go |
| Friends.WriteKeepsJustified | internal/repository/postgres/client_repository.go:444-461 | a write leaves an edge without accepted request if and only if it takes back the only one its edge rests on |
| Friends.RequestsSettleOnce | internal/repository/postgres/client_repository.go:452-456 | requests leave Pending at most once in a run if and only if no write finds another final state |
| Friends.OnlyPartiesSettle | internal/repository/postgres/client_repository.go:444-456 | in every reachable state, whatever a request was settled as, its sender or its receiver had asked for that and passed the test |
| Friends.LateDeclineOrphansAnEdge | internal/application/clientapi/service.go:446-487 | a run in which an accept and a late decline leave a friendship on a declined request |
| DirectRooms.RoomStore.FindDirectRoomIDByUsers | internal/repository/postgres/client_repository.go:282-300 | finds the pair's room that is not deleted, if there is one |
| DirectRooms.RoomStore.CommitDirectRoom | internal/application/clientapi/service.go:578-592 | the transaction: an existing room, a new one, or nothing when a constraint is violated |
| DirectRooms.RoomStore.CreateDirectRoom | internal/application/clientapi/service.go:525-595 | its errors, exactly when; otherwise the pair's room, found or new |
| DirectRooms.RoomStore.DeleteRoom | internal/repository/postgres/client_repository.go:566-576 | only the owner deletes, and only a room not yet deleted |
| DirectRooms.OneDirectRoomPerPair | internal/application/clientapi/service.go:525-595 | over any run, deletions included, two answers name the same room if and only if they are about the same two users |
| DirectRooms.AdmittedIsAnsweredExactly | internal/application/clientapi/service.go:543-592 | in any run, an admitted caller can be answered, by the pair's room or a new one, if and only if the pair has no deleted room |
| DirectRooms.DeletionEndsThePair | db/migrations/V5__direct_rooms.sql:1-10 | once a pair's room is deleted, neither of the two gets an answer any more |

## Left out

- SQL text, drivers, CBOR and JSON coding, HTTP, WebSocket, TCP, push messages, logging, configuration and migrations, beyond table shapes, primary keys and UNIQUE and CHECK constraints that decide an outcome.
- Row locks and transactions: an operation is one atomic step, apart from those listed under "How it is organised". `SKIP LOCKED` is in the runs, where a claim takes any due heads; the class method and the drain theorems take the oldest ones.
- The two statements inside an append and the two inside a tail drop with other steps in between: the head invariants are about each pair as one step and do not survive splitting it.
- Appends to one segment with decreasing `created_at`: runs require stamps that do not decrease, the queue refinement stamps that grow.
- Event ids are fresh and the derived outbox id is injective in event and device; the `user_events` insert that enforces the first fails before the outbox is touched.
- Payloads, `last_error`, `updated_at` and the event type of outbox rows, and the rounding of stamps to microseconds.
- Which devices an event is for: the query over sessions and push tokens is a parameter of the append.
- Expired pending rows that an ack skipped: the code keeps them for good, and the theorems do not claim otherwise.
- HeadAgreesWithScan: speaks of instants from the latest ack reading on; a row that expired before that reading may be older than the head.
- ClaimsAreFifo: is about runs in which no ack revives a row behind a claimed event, because with such an ack it can fail (`OlderReadingReorders`); the exact statement is `InOrderExactly`.
- OneInFlightPerSegment, ListInflightHasOnePerSegment: are about runs in which no ack revives a row older than what a scan saw, because with such an ack they can fail (`OlderReadingStrandsALease`); the exact statement is `LeasesAreSingleExactly`.
- SegmentIsAQueue, DeliveriesArePeeks: are about runs in which no ack hands the segment to an expired row; the exact statement is `SegmentIsAQueueExactly`. Stamps that grow strictly in the segment are required, since with ties the database may answer in any order.
- PullSendsTheUnsent: is the case of one reading; `PullWithholdsExactly` is the general one.
- SentOncePerClaim: one connection's own clock readings do not go back.
- PullOutboxPackets: is the uninterrupted pull; `Connection` and `Wakeups` interleave its parts with the workers. A nil cache, which one caller passes, means a fresh one.
- NoLostWakeup: a pull that fails counts as the loop's last pull, since it may have used up its wake-up; the code then relies on its timer.
- EventBus.Bus.NotifyKey: is one step; the code sends after releasing the lock, so a notification racing an unsubscribe of the same id is not in the model. Channels are numbered slots.
- PullEvents: is the uninterrupted pull; the runs split it into listing and marking.
- The service's event acknowledgement beyond the repository's (nil id and key length tests), sessions and challenges, and subscription records.
- RecordUserUsage: the service's silent return for a key of the wrong length; no such key has a profile.
- Listing endpoints other than their paging; the searches by name, whose order has no tie-break, so that no fixed list stands behind their pages.
- UpdateFriendRequestState: the class method checks and writes at once; the runs let other steps in between. Account deletion, several statements in one transaction, is one step.
- Events sent to the other party about requests, friends and rooms, and an accept that is rolled back because its event could not be stored.
- CreateDirectRoom: titles, members and roles of the room. A commit that meets another commit of the pair between its lookup and its insert fails on the UNIQUE key and changes nothing, which in the runs is no step.
- The ticker loops of dispatcher and janitor, the notifier for push messages, the RPC dispatch, profiles, avatars, group rooms and permissions.
