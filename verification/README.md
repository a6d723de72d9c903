# Dendrite: outgoing federation, event recipients, signing keys and five smaller algorithms

This project models parts of the Dendrite Matrix homeserver and proves what its operations keep. The outgoing
federation queue comes first, at two granularities: as a system of goroutines that interleave one atomic
operation at a time (`QueueProtocol`, `QueueInvariants`, `QueueBooks`, `QueueSystem`) and as the methods of
its classes (`DestinationQueues`, `OutgoingQueues`); `QueueRounds` proves that an undisturbed round of the
first is what the method of the second computes, `QueueCourses` does the same for the other goroutines,
`StoredRows` proves that no stored row is forgotten as long as scans are careful, `OwnPdus` that no
destination gets the PDUs of another, `Recovery` that there is no dead end, and `QueueRuns` builds runs that
end badly. `BackoffTimer` adds the timer that ends a backoff, `Receiver` the other end of a transaction.
Around the queue stand the recipients of a room event (`StateDelta`, `Recipients`, `JoinedHosts`), the
signing-key lookup (`KeyLookup`), the ordered push-rule list (`PushRules`), registration flows and sessions
(`Registration`, `SessionTimers`), the public room directory (`Pagination`, `PublicRooms`), the power-level
rewrite (`PowerLevels`), the event provider of a join (`EventProviders`) and the lock per room (`RoomMutex`).

`dafny verify dfyconfig.toml` checks everything.

## How the queue is modelled

- A program counter stands for each point between two atomic operations of `sendEvent`, `sendEDU`, the
  wakers, the backoff callback, the worker loop and its closing check. What is done under one mutex and can
  only be seen through that mutex is one step; the database scan and the drop after a success keep the
  mutex over several steps.
- A run is any sequence of actions: a step of any goroutine of any queue, a goroutine or timer starting, a
  queue being created (also a second one for the same destination), rows being stored and associated, EDUs
  expiring, the blacklist changing, shutdown, restart. Query answers, send outcomes and select choices are
  open.
- History fields (`Log`, `attempts`, `tried`, `stale`, `Marks`, `posted`, `accepted`) record what happened; no step
  reads them.

## Assumptions

- A pending-item query returns 128 distinct stored rows of the destination, or all of them if fewer
  (`QueueMemory.Answers`), or fails.
- Rows of the JSON table are created for one PDU or one EDU, and a PDU is associated with all its destinations
  before any of its rows can be cleaned. No-loss is stated from the moment a row is in:
  `AssociatePDUWithDestinations` keeps only the error of the last insert, so where a failed insert does not doom
  the whole database transaction a row can be missing without an error (`Delivery.RowsAreMissingExactlyWhen`).
- `statistics.Failure` decides freely whether it blacklists; `Success` takes a destination off the
  blacklist. Outside `BackoffTimer` a backoff timer fires at any time, and timers are not tracked.
- "Delivered" is the sender's view: a transaction with the body was acknowledged. `Receiver` says when the other
  side has also read it.
- Storing keys is one database transaction (`internal/sqlutil/writer_dummy.go:20-24`), whatever the comment in
  `federationapi/storage/shared/storage_keys.go:48-54` says; `KeyLookup` allows any set of upserts to fail.
- Roomserver replies contain only events that were asked for.
- Sender IDs do not parse as user IDs (they are base64 keys; user IDs begin with `@`).

## What turned out not to hold, and when it does

- Pending work can be stranded. A waker puts its token in and only later clears `backingOff`. If the worker
  takes that token, fails and backs off in between, the late clear leaves pending items with no token and no
  backoff; the backoff timer then does nothing (`QueueRuns.WorkCanBeStranded`).
  `QueueInvariants.StepStrandsExactlyWhen` gives the exact step, `QueueInvariants.StrandedUntil` what ends
  it, and `QueueSystem.NoStuckWork` proves that it cannot happen if no such wake-up is interrupted.
- A backoff may never end. `Success` stops the timer without waking the queue, and other requests to the same
  destination call it (`BackoffTimer.SuccessElsewhereAbandons`); `BackoffTimer.PromiseBreaksExactlyWhen` gives
  the exact steps.
- A scan may clear `overflowed` although the database holds more, for three reasons: a query failed
  (`QueueRuns.RowCanBeForgotten`); one was skipped because the list is full; or items whose rows have expired, or that
  are in memory twice, take the room of stored ones (`QueueMemory.ExpiredItemsCrowdOut`).
  `DestinationQueues.ScanCompleteness` gives the exact condition. An event is also forgotten in memory if its
  destination is on the blacklist when it is handed over (`QueueRuns.EventCanBeTurnedAway`). Without these,
  `StoredRows.NoRowIsForgotten` holds in every run.
- A retry under the same transaction ID may carry more items than the attempt before
  (`QueueRuns.RetryCanCarryMore`, `QueueBooks.RetryCarriesTheSameExactlyWhen`). It may even carry them in another order,
  behind new ones: a blacklisting wipes the lists but not the ID, and the queue lives on in hydration timers and in
  senders that already have it (`federationapi/queue/queue.go:127-131`, `255-257`; `QueueRuns.RetryCanReorder`). Only
  attempts made since the last wipe are extended (`QueueSystem.RetryAgainstAttempt`). Section "Transactions" of the
  Matrix Server-Server API makes the ID the key under which a receiver recognises a repeated transaction; one that
  is still working on the first attempt acknowledges the second without reading what was added
  (`QueueRuns.RetryCanGoUnread`, `Receiver.RetryIsReadExactlyWhen`).
- The validity stored for a signing key can go down. Fetchers reply more than they are asked
  (`internal/matrixserver/keyring.go:111-112`, `584-608`), and a key that was not asked for is compared with the
  results of the call only, not with the table (`KeyLookup.DirectReplyCanLower`). Within one call it happens even
  to a key that was asked for (`KeyLookup.AskedKeyCanGoDown`). `KeyLookup.RunSteadyExactlyWhen` gives the exact
  condition for any run of lookups.
- For an event that rewrites the state, `UpdateRoom` returns the hosts it has just written, not the old ones,
  so the event also goes to servers joined only in the new state (`Recipients.RewriteReachesNewcomer`,
  `Recipients.RewriteRecipients`). When the old host list is empty nothing is sent, not even to peeking servers
  (`JoinedHosts.PeekerMissesFirstEvent`). `JoinedHosts.MessageRecipients` gives the exact condition.
- A comment takes an empty old host list for the sign of a repeated message
  (`federationapi/consumers/roomserver.go:225-231`), but `UpdateRoom` returns the rows it finds. A message that comes
  again after a crash goes to the servers joined after the event instead of before (`JoinedHosts.RepeatedRecipients`,
  `JoinedHosts.RepeatedLeaveIsMissed`).
- Folding two deltas into one is right for deltas between actual states, and in general exactly under
  `StateDelta.CancellationIsSound`.
- `sliceInto` panics for some offsets and limits that a request can carry (`Pagination.SomeSincePanics`,
  `Pagination.NegativeSincePanics`, `Pagination.PanicsExactlyWhen`).
- A push rule cannot be anchored to itself, because its old entry is cut first
  (`PushRules.CannotAnchorToItself`).
- A flow that lists a stage twice can never be completed by a session (`Registration.SessionFlow`).
- `startTimer` waits on a channel that a timer made by `AfterFunc` does not have. If the session's timer has fired
  and the deletion it called for has not ended, the call hangs with the dictionary locked
  (`SessionTimers.ResetAfterFiringGetsStuck`, `SessionTimers.GetsStuckExactlyWhen`).
- The event provider refuses to repeat a request that succeeded with an event of another ID
  (`EventProviders.RepeatCanBeRefused`, `EventProviders.RepeatIsRefusedExactlyWhen`).
- Two users with one sender ID share one power-level entry; which level survives depends on the iteration
  order (`PowerLevels.OrderCanMatter`, `PowerLevels.LevelsKeptExactlyWhen`).
- `Unlock` of a room that was never locked panics with the map mutex held, and no room can be locked any
  more; `Unlock` of a room twice aborts the program (`RoomMutex.UnlockFirstPanics`,
  `RoomMutex.UnlockTwiceAborts`, `RoomMutex.FailsExactlyWhen`, `RoomMutex.PanicJamsEveryRoom`).

## Model

| member | source | states |
|---|---|---|
| `QueueSystem.NoPduIsEverLost` | federationapi/queue/queue.go:241-256 | After any run with failures, blacklisting, wiped memory and restarts, a PDU once associated with a destination still has its row and its JSON for that destination, or a transaction with its body was accepted for it. |
| `QueueSystem.AtMostOneWorker` | federationapi/queue/destinationqueue.go:303-312 | In every run two goroutines of one queue inside the send loop are the same goroutine, and `running` is set. |
| `QueueSystem.NoStrandedToken` | federationapi/queue/destinationqueue.go:165-193 | In every run a token in `notify` implies a running worker, a waker that has not finished, a worker about to start or closing, or a worker that left because of blacklisting or shutdown. |
| `QueueSystem.NoStuckWork` | federationapi/queue/destinationqueue.go:165-187 | In every run in which no wake-up that ends a backoff is interrupted, pending items always have a token, the backoff flag, or a goroutine that holds them or is about to notify. |
| `QueueSystem.InOnePiece` | federationapi/queue/destinationqueue.go:165-187 | A wake-up that clears the backoff right after its own token counts as uninterrupted. |
| `QueueSystem.QuietQueueIsDoneOrBackingOff` | federationapi/queue/destinationqueue.go:296-398 | When all goroutines of a queue have finished, without blacklisting, shutdown or a late clear, no token is left and pending items mean that the queue is backing off. |
| `QueueSystem.SentInOrderEntered` | federationapi/queue/destinationqueue.go:357-368 | In every interleaving with senders, the items sent are a prefix of the items that entered and were not wiped, in order, and exactly the dropped ones plus the batch still held. |
| `QueueSystem.RetriesKeepTheirId` | federationapi/queue/destinationqueue.go:507-515 | In every run both lists stay within 128, all attempts since the last success carry the stored transaction ID, and of those since the last wipe later ones extend earlier ones. |
| `QueueSystem.PostedTransactionShape` | federationapi/queue/destinationqueue.go:353-379 | Every transaction posted in any run has at most 50 PDUs and 100 EDUs, at least one item, and contents that match the fronts of the lists and the receipts index by index. |
| `QueueSystem.EveryRunKeepsInv` | federationapi/queue/destinationqueue.go:48-68 | All invariants of store and queues hold at the end of every run, and accepted, recorded and associated items are never taken back. |
| `QueueSystem.ActionKeepsInv` | federationapi/queue/queue.go:147-181 | Each single action of the system keeps the invariants of the store and of every queue, also of queues it does not touch. |
| `QueueSystem.StepKeepsQueueInv` | federationapi/queue/destinationqueue.go:296-398 | One atomic operation keeps the invariant of its queue; work becomes stranded only with the late-clear mark. |
| `QueueSystem.NoWorkAfterShutdown` | federationapi/queue/destinationqueue.go:297-300 | Once shut down, and until a restart, a queue that nobody works on stays so, however many wake-ups it gets. |
| `QueueSystem.TheWorldIsFree` | federationapi/queue/queue.go:147-181 | What may happen at any time, exactly: restarts, shutdown, any blacklist, queues, rows, expiries, and which goroutines may enter a queue. |
| `QueueSystem.TheWorldIsObeyed` | federationapi/queue/queue.go:123-132 | What these actions leave in the store, row by row; in particular no later scan finds an expired EDU. |
| `OwnPdus.OnlyOwnPdusAreSent` | federationapi/queue/queue.go:241-257 | In every run, each PDU of a transaction that a destination accepts was associated with that destination, or handed to a queue for it. |
| `OwnPdus.HandedExactly` | federationapi/queue/queue.go:255-257 | A PDU counts as handed over exactly by a send with its body into a queue of the destination. |
| `OwnPdus.AnswersAreOwn` | federationapi/storage/shared/storage_pdus.go:54-102 | A scan finds only PDUs that were associated with the destination of its queue. |
| `Recovery.StoredPduCanBeDelivered` | federationapi/queue/destinationqueue.go:296-398 | From every consistent store, for every PDU row, a queue for its destination can be opened and run to deliver it; its row is then gone. |
| `Recovery.RestartCanDeliver` | federationapi/queue/queue.go:113-134 | Whatever has happened, a restart leaves a way to deliver every PDU that is still stored. |
| `QueueRounds.StepsMakeTheRound` | federationapi/queue/destinationqueue.go:355-396 | From any state of a queue with its worker about to pick and the mutex free, the atomic steps of a round are all possible, and undisturbed they leave the whole queue as `RoundOf` says, in the empty, successful, failed and blacklisted cases; exactly an accepted transaction is recorded, and exactly the rows of the items it carried leave the store, as far as the clean-up succeeds. |
| `QueueRounds.AloneIsSteps` | federationapi/queue/destinationqueue.go:355-396 | Steps of one goroutine of a queue, with nobody in between, are possible and do to the queue what they do to the part of it that the goroutine works on; all others wait. |
| `QueueCourses.SendCourse` | federationapi/queue/destinationqueue.go:73-130 | The steps of a send, undisturbed: nothing for a nil event or a blacklisted destination; otherwise the item is appended below 128 or `overflowed` is set, and the queue is woken unless it backs off, which a send leaves alone. |
| `QueueCourses.BackoffCourse` | federationapi/queue/destinationqueue.go:135-142 | The backoff callback wakes the queue exactly if it still backs off. |
| `QueueCourses.RetryCourse` | federationapi/queue/destinationqueue.go:147-161 | A retry wakes the queue exactly if something is pending. |
| `QueueCourses.WakeCourse` | federationapi/queue/destinationqueue.go:165-186 | A wake-up puts the token in and then clears `backingOff`, and does nothing else. |
| `QueueCourses.WakeEnds` | federationapi/queue/destinationqueue.go:188-192 | Its last test starts a worker exactly if none is running. |
| `QueueCourses.GivesWay` | federationapi/queue/destinationqueue.go:297-305 | A worker gives up at once on shutdown, and if another one is running. |
| `QueueCourses.EnteringIs` | federationapi/queue/destinationqueue.go:296-327 | Otherwise it claims the queue and goes to the database, whatever `overflowed` was. |
| `QueueCourses.LoopIs` | federationapi/queue/destinationqueue.go:322-327 | Later rounds go to the database exactly if `overflowed` is set. |
| `QueueCourses.ScanCourse` | federationapi/queue/destinationqueue.go:198-275 | The steps of a scan: both lists topped up; `overflowed` stays exactly if one of the two answers had 128 rows; a token is put in if anything came. |
| `QueueCourses.WaitEnds` | federationapi/queue/destinationqueue.go:340-354 | A wait ends with a token if there is one, which is used up, with the timeout at any time, or on shutdown. |
| `QueueCourses.PickCourse` | federationapi/queue/destinationqueue.go:356-374 | The batch is the first 50 PDUs and 100 EDUs, or as many as there are; with nothing pending the loop goes on. |
| `QueueCourses.CloseCourse` | federationapi/queue/destinationqueue.go:279-310 | A closing worker clears `running` first; unless blacklisted it takes a token that is there and wakes the queue again. |
| `QueueRuns.WorkCanBeStranded` | federationapi/queue/destinationqueue.go:165-187 | For every destination, stored PDU and transaction ID, a run from a fresh state, without blacklisting or shutdown, ends with that PDU pending, no token, no backoff and no worker. |
| `QueueRuns.RowCanBeForgotten` | federationapi/queue/destinationqueue.go:220-265 | A run from a fresh state ends with the worker waiting, `overflowed` clear, no token and empty memory, although a row is stored for the destination. |
| `QueueRuns.RetryCanCarryMore` | federationapi/queue/destinationqueue.go:356-379 | A run from a fresh state ends with a second attempt, about to be posted under the ID of the first, that carries a PDU the first did not. |
| `QueueRuns.RetryCanReorder` | federationapi/queue/destinationqueue.go:558-579 | A run from a fresh state ends with a second attempt, about to be posted under the ID of the first, that does not begin with what the first carried: a blacklisting in between wiped the lists and kept the ID. |
| `QueueRuns.EventCanBeTurnedAway` | federationapi/queue/destinationqueue.go:79-98 | A run whose queries all succeed ends with the worker waiting, `overflowed` clear, and a stored row not in memory, because its event came while the destination was on the blacklist. |
| `StoredRows.NoRowIsForgotten` | federationapi/queue/destinationqueue.go:219-266 | In every run whose scans find memory complete or have room and a successful query, and that turns no event away, a worker that waits with `overflowed` clear has each stored PDU row of its destination in memory, or a sender is about to append it, or its event was not handed over yet, or it was delivered. |
| `StoredRows.OwedExactly` | federationapi/queue/queue.go:241-257 | A row counts as not handed over exactly from its association until its event is sent into the queue, or the queue is new. |
| `StoredRows.OperationKeepsCoverage` | federationapi/queue/destinationqueue.go:73-99 | One careful operation keeps this, for whatever set of rows not handed over yet. |
| `BackoffTimer.PromiseBreaksExactlyWhen` | federationapi/statistics/statistics.go:145-181 | A queue that is backing off has a running timer, a callback under way or a waker; a step breaks this if and only if it stops the timer (a success or a shutdown) during a backoff, or sets `backingOff` when the timer has stopped, while no callback and no waker is there. |
| `BackoffTimer.EveryBackoffIsWatched` | federationapi/statistics/statistics.go:187-232 | In every run without such a step, somebody is there to end each backoff. |
| `BackoffTimer.SuccessElsewhereAbandons` | federationapi/statistics/statistics.go:166-181 | A run in which another request to the destination succeeds during a backoff leaves a pending PDU with no timer, callback or waker. |
| `BackoffTimer.EveryFailureHasATimer` | federationapi/statistics/statistics.go:187-232 | In every run, however many failures come in a row: after a failure of the worker that does not blacklist, a timer runs or a callback is under way. |
| `BackoffTimer.TimerStartsExactlyWhen` | federationapi/statistics/statistics.go:187-258 | Exactly which events start the timer, end a backoff period, and stop the timer. |
| `BackoffTimer.TheWorldIsFree` | federationapi/statistics/statistics.go:187-216 | What may happen around a queue; a failure blacklists only if it begins a backoff period. |
| `BackoffTimer.OthersChangeTheBlacklist` | federationapi/statistics/statistics.go:145-216 | Other requests change nothing of a queue, and of the store only whether its destination is blacklisted. |
| `Receiver.RetryIsReadExactlyWhen` | federationapi/routing/send.go:68-93 | For any attempts under one ID, a retry has all its PDUs read if and only if the receiver is not busy, or each of them was in an attempt that arrived when the receiver was not. |
| `Receiver.GrownRetryIsReadExactlyWhen` | federationapi/routing/send.go:68-93 | If attempts only grow at their end: if and only if no attempt is in work or that one carried all of them. |
| `QueueSystem.RetryAgainstAttempt` | federationapi/queue/destinationqueue.go:357-379 | In every run, a transaction about to be posted has the ID of every attempt since the last success, begins with the PDUs of each one made since the last wipe, and equals it exactly when its batch does. |
| `QueueRuns.RetryCanGoUnread` | federationapi/routing/send.go:72-93 | A run whose retry is acknowledged by a receiver that never reads one of its PDUs. |
| `QueueInvariants.StepKeepsOneWorker` | federationapi/queue/destinationqueue.go:303-310 | Every step keeps `running` equal to there being a goroutine in the send loop, that goroutine unique, and the pending mutex with one holder. |
| `QueueInvariants.LoopBoundary` | federationapi/queue/destinationqueue.go:303-310 | Only a won compare-and-swap enters the send loop, and only the deferred clearing of `running` leaves it. |
| `QueueInvariants.HeldUpExactlyWhen` | federationapi/queue/destinationqueue.go:203-204 | A goroutine waits for the pending mutex exactly if it is about to append or to look at the pending lists for a retry while the worker is in the middle of a scan or a drop; the worker itself never waits. |
| `QueueInvariants.SomebodyCanStep` | federationapi/queue/destinationqueue.go:296-398 | As long as a goroutine of the queue has not finished, some goroutine can step. |
| `QueueInvariants.StepKeepsTokenWatched` | federationapi/queue/destinationqueue.go:279-293 | Every step keeps each token watched; this rests on notify-before-test in the waker and clear-before-recheck in the closing worker. |
| `QueueInvariants.StepStrandsExactlyWhen` | federationapi/queue/destinationqueue.go:182-187 | A step strands pending work if and only if it clears `backingOff` while work is pending, no token is left and nobody else carries the work. |
| `QueueInvariants.StrandedUntil` | federationapi/queue/destinationqueue.go:135-161 | A step ends strandedness if and only if it appends an item, is a retry that looks at the pending lists, or is a scan that finds something new. |
| `QueueBooks.DropIsExact` | federationapi/queue/destinationqueue.go:583-598 | The drop after a success removes from the front of each list exactly the batch that was carried, and the rest stays in order. |
| `QueueBooks.RetryCarriesTheSameExactlyWhen` | federationapi/queue/destinationqueue.go:357-379 | A retry has the last attempt as a prefix if and only if that attempt is still at the front of the lists, as it is unless they were wiped since, and equals it if and only if, besides, nothing that would still fit was added behind it. |
| `QueueBooks.StepKeepsBooks` | federationapi/queue/destinationqueue.go:338-397 | Every step keeps both lists bounded, true to the database and in order of entry, the batch a prefix of the lists, and the sent items balanced with the dropped ones. |
| `QueueBooks.StepKeepsWorld` | federationapi/queue/destinationqueue.go:464-480 | Whatever a queue does to the store, no PDU is lost, and nothing recorded, associated or accepted is taken back. |
| `QueueBooks.PostDelivers` | federationapi/queue/destinationqueue.go:420-463 | An accepted transaction delivers every PDU of the batch to the destination. |
| `QueueBooks.CleanUpIsExact` | federationapi/storage/shared/storage_pdus.go:107-146 | The clean-up after an accepted transaction, if it succeeds, takes exactly the carried PDUs off the destination, so that no scan finds them, and exactly the JSON of those that no destination needs any more; if it fails nothing changes. |
| `QueueBooks.EduCleanUpIsExact` | federationapi/storage/shared/storage_edus.go:128-167 | The same for EDUs. |
| `Delivery.AcceptDelivers` | federationapi/queue/destinationqueue.go:532-541 | A transaction with the bodies of faithful items delivers every one of them. |
| `Delivery.CleanPDUsKeeps` | federationapi/storage/shared/storage_pdus.go:107-146 | Deleting the rows of delivered PDUs, and the JSON that no row refers to any more, loses no PDU of any destination and no EDU. |
| `Delivery.CleanEDUsKeeps` | federationapi/storage/shared/storage_edus.go:128-167 | Cleaning EDU rows loses no PDU. |
| `Delivery.ExpireEDUsKeeps` | federationapi/storage/shared/storage_edus.go:178-204 | Deleting expired EDUs with their JSON loses no PDU. |
| `Delivery.AssociatePDUKeeps` | federationapi/storage/shared/storage_pdus.go:32-50 | Adding the rows of a stored PDU for any set of destinations keeps every earlier association stored or delivered. |
| `Delivery.AssociatePDUWithDestinations` | federationapi/storage/shared/storage_pdus.go:32-50 | Every insert is tried; the outcome of the last decides whether the rows that went in are kept or none. |
| `Delivery.RowsAreMissingExactlyWhen` | federationapi/storage/shared/storage_pdus.go:37-49 | Success is reported although a row is missing if and only if some insert failed and the last one did not. |
| `Delivery.RecordKeeps` | federationapi/storage/shared/storage.go:135-149 | A new JSON row disturbs no association. |
| `Delivery.CleanPDUsIsExact` | federationapi/storage/shared/storage_pdus.go:122-142 | Of the rows in question exactly those of the one destination go, and of their JSON exactly what no row needs then. |
| `Delivery.CleanEDUsIsExact` | federationapi/storage/shared/storage_edus.go:143-163 | The same for EDU rows. |
| `Delivery.ExpireEDUsIsExact` | federationapi/storage/shared/storage_edus.go:178-204 | Expired EDUs go for all destinations, with their JSON, and nothing else. |
| `Delivery.AssociatingIsExact` | federationapi/storage/shared/storage_pdus.go:32-50 | Associating adds exactly the rows asked for. |
| `Delivery.StoredForIsExact` | federationapi/storage/shared/storage_pdus.go:54-102 | A pending query draws exactly on the rows of its own destination whose JSON is there. |
| `Delivery.RecordIsExact` | federationapi/storage/shared/storage.go:135-149 | A new JSON row is there with its body, and no other changes. |
| `QueueMemory.TopUpCompleteness` | federationapi/queue/destinationqueue.go:219-237 | Whatever is in memory, a top-up that does not report a full answer leaves the whole store in memory if and only if memory held everything before, or the query was made and succeeded and there was room for all that was missing. |
| `QueueMemory.AbsorbIsExact` | federationapi/queue/destinationqueue.go:226-235 | The loop appends the rows that memory does not hold, in their order, up to 128 items. |
| `QueueMemory.StoredItemsCompleteness` | federationapi/queue/destinationqueue.go:219-237 | If everything in memory is stored, and nothing twice, it is enough that the query was made and succeeded. |
| `QueueMemory.ExpiredItemsCrowdOut` | federationapi/storage/shared/storage_edus.go:178-204 | 28 expired items in memory, 127 stored rows, a correct answer that is not full: some stored rows are left out. |
| `QueueMemory.TopUpKeepsDistinct` | federationapi/queue/destinationqueue.go:208-233 | A top-up keeps receipts distinct and within the store, whatever the order of the rows. |
| `QueueMemory.TopUpExtends` | federationapi/queue/destinationqueue.go:226-233 | A top-up only adds behind the list, only rows of the answer, and stops at 128. |
| `QueueMemory.ShortAnswerIsAll` | federationapi/storage/shared/storage_pdus.go:54-102 | A correct answer shorter than the limit lists every stored row (a counting argument). |
| `QueueMemory.PresentIsCarriedWhole` | federationapi/queue/destinationqueue.go:530-541 | For items with bodies, the bodies and receipts of a transaction match the items index by index. |
| `QueueMemory.ReceiptsMatchBodies` | federationapi/queue/destinationqueue.go:530-551 | Also when items without a body are skipped, the k-th receipt belongs to the k-th body. |
| `QueueMemory.BodiesAppend` | federationapi/queue/destinationqueue.go:530-551 | What two lists carry together is what each carries, in order. |
| `QueueMemory.OneBody` | federationapi/queue/destinationqueue.go:530-551 | One item carries its body and receipt, or nothing if it has no body. |
| `DestinationQueues.ScanCompleteness` | federationapi/queue/destinationqueue.go:219-265 | Whatever is in memory, a scan that clears `overflowed` leaves every stored PDU and EDU in memory if and only if, for each kind, memory was complete already, or the query succeeded with room for all that was missing. |
| `DestinationQueues.StoredScanCompleteness` | federationapi/queue/destinationqueue.go:219-265 | If everything in memory is stored, and nothing twice, it is enough that each query was made and succeeded; receipts stay distinct. |
| `DestinationQueues.DestinationQueue.WakeQueueIfNeeded` | federationapi/queue/destinationqueue.go:182-193 | Afterwards the queue is not backing off, and a worker is spawned exactly when none is running. |
| `DestinationQueues.DestinationQueue.WakeQueueAndNotify` | federationapi/queue/destinationqueue.go:165-178 | Afterwards the token is in, the queue is not backing off, and a worker is spawned exactly when none is running. |
| `DestinationQueues.DestinationQueue.HandleBackoffNotifier` | federationapi/queue/destinationqueue.go:135-142 | The callback wakes the queue exactly when it is still backing off. |
| `DestinationQueues.DestinationQueue.WakeQueueIfEventsPending` | federationapi/queue/destinationqueue.go:147-161 | Wakes exactly when forced or when items are pending, and then also ends a backoff. |
| `DestinationQueues.DestinationQueue.SendEvent` | federationapi/queue/destinationqueue.go:73-99 | Nothing happens for a nil event or a blacklisted destination; otherwise the event is appended below 128 or `overflowed` is set, and the queue is woken unless it backs off. |
| `DestinationQueues.DestinationQueue.SendEDU` | federationapi/queue/destinationqueue.go:104-130 | The same for EDUs. |
| `DestinationQueues.DestinationQueue.Retrieve` | federationapi/queue/destinationqueue.go:208-237 | The loop over one query's answer computes the top-up, reports a full answer and whether anything was added. |
| `DestinationQueues.DestinationQueue.GetPendingFromDatabase` | federationapi/queue/destinationqueue.go:198-275 | Both lists are topped up, `overflowed` survives only a full answer, and a token is put in when anything was added. |
| `DestinationQueues.DestinationQueue.CreateTransaction` | federationapi/queue/destinationqueue.go:503-554 | The stored transaction ID is kept or a new one stored; bodies and receipts skip exactly the items without a body. |
| `DestinationQueues.DestinationQueue.NextTransaction` | federationapi/queue/destinationqueue.go:404-498 | The send counts if the destination took it or, when assumed offline, any relay did; exactly then the receipts are cleaned and the transaction ID is forgotten. |
| `DestinationQueues.DestinationQueue.TryRelays` | federationapi/queue/destinationqueue.go:439-461 | Trying all relays succeeds exactly when one of them accepts. |
| `DestinationQueues.DestinationQueue.HandleTransactionSuccess` | federationapi/queue/destinationqueue.go:583-606 | Exactly the counted front of each list is dropped, and a token is put in when anything is left. |
| `DestinationQueues.DestinationQueue.BlacklistDestination` | federationapi/queue/destinationqueue.go:558-577 | Both lists are emptied, and the backoff timer no longer leads to this queue. |
| `OutgoingQueues.OutgoingQueues.Blacklist` | federationapi/queue/destinationqueue.go:558-579 | The same, and exactly the queue of this destination leaves the collection. |
| `DestinationQueues.DestinationQueue.CheckNotificationsOnClose` | federationapi/queue/destinationqueue.go:279-293 | Unless blacklisted, a token found by the closing worker is put back and a worker is spawned; otherwise nothing changes. |
| `DestinationQueues.DestinationQueue.TakeBatch` | federationapi/queue/destinationqueue.go:353-367 | The batch is the front of each list, at most 50 PDUs and 100 EDUs. |
| `DestinationQueues.DestinationQueue.EndRound` | federationapi/queue/destinationqueue.go:380-396 | After a send exactly what was sent is dropped; after a failure the lists are kept and the queue backs off, or they are wiped. |
| `DestinationQueues.DestinationQueue.HandleToken` | federationapi/queue/destinationqueue.go:355-396 | One round running alone is `RoundOf`: the fronts (50 and 100) are posted under the sticky ID; success drops exactly them, failure keeps everything and backs off, or wipes the lists when blacklisted. |
| `OutgoingQueues.OutgoingQueues.GetQueue` | federationapi/queue/queue.go:147-171 | No queue for a blacklisted destination, else the registered queue or a fresh empty one, and no other entry changes. |
| `OutgoingQueues.OutgoingQueues.ClearQueue` | federationapi/queue/queue.go:175-181 | Exactly the entry of that destination goes. |
| `OutgoingQueues.OutgoingQueues.OpenQueues` | federationapi/queue/queue.go:230-239 | Each wanted destination that is not blacklisted has a queue afterwards; queues that were there are kept, new ones are empty. |
| `OutgoingQueues.OutgoingQueues.HandOver` | federationapi/queue/queue.go:255-257 | Each of the queues has the event behind its pending ones or has noted that it did not fit, is notified unless it backs off, and a worker is started exactly where none runs. |
| `OutgoingQueues.OutgoingQueues.Enqueue` | federationapi/queue/queue.go:230-257 | Queues are opened for all wanted destinations that are not blacklisted; if the rows could be associated, each of them has the event, and workers are started exactly where none runs and no backoff is on. |
| `OutgoingQueues.OutgoingQueues.SendEvent` | federationapi/queue/queue.go:184-260 | An event goes to exactly the distinct destinations that are neither our own names nor blacklisted, and to no other queue; each of the four errors has its cause, and after an error no queue has the event. |
| `OutgoingQueues.OutgoingQueues.RetryServer` | federationapi/queue/queue.go:344-352 | A retry wakes the destination's queue exactly when it was blacklisted or has pending items; pending items stay. |
| `OutgoingQueues.Hydrate` | federationapi/queue/queue.go:123-132 | The loop schedules the k-th queue it gets k steps after five seconds. |
| `OutgoingQueues.HydrationSchedule` | federationapi/queue/queue.go:123-132 | For any number of servers, each one that is not blacklisted wakes exactly once, at or after 5 s and strictly before 125 s, in non-decreasing order, under integer division. |
| `OutgoingQueues.StepExactly` | federationapi/queue/queue.go:124-128 | One second up to 120 servers; for more the greatest step with which all fit into 120 seconds. |
| `StateDelta.CombinePass` | federationapi/consumers/roomserver.go:444-459 | One pass cancels values found in the opposite map and adds the others, once each, whatever their order or repetition. |
| `StateDelta.CombineDeltas` | federationapi/consumers/roomserver.go:440-474 | The outputs list each value once and depend only on the sets of values. |
| `StateDelta.CombinedIsDisjoint` | federationapi/consumers/roomserver.go:437-474 | For all inputs no event is both added and removed. |
| `StateDelta.CombinedPreservesExactlyWhen` | federationapi/consumers/roomserver.go:437-474 | For all states and deltas, the folded delta has the effect of add1, remove1, add2, remove2 in turn if and only if what cancelled out was already as it ends up. |
| `StateDelta.CombinedPreservesEffectiveDeltas` | federationapi/consumers/roomserver.go:437-474 | For two effective deltas the folded delta has the effect of both in turn. |
| `StateDelta.CombinedIsEffective` | federationapi/consumers/roomserver.go:437-474 | The fold of two effective deltas is effective again. |
| `Recipients.JoinedHostsFromEvents` | federationapi/consumers/roomserver.go:399-435 | Succeeds exactly when no member event lacks its membership and no join its server, and then yields a row exactly for each member event with a state key, membership "join" and a sender of that server; an "invite" yields none. |
| `Recipients.MissingEventsFrom` | federationapi/consumers/roomserver.go:530-542 | Lists exactly the required IDs that no event has. |
| `Recipients.LookupStateEvents` | federationapi/consumers/roomserver.go:477-528 | Succeeds exactly when the event itself and the reply cover all IDs, and then returns exactly the events with these IDs. |
| `Recipients.JoinedHostsAtEvent` | federationapi/consumers/roomserver.go:335-394 | Yields the kept old hosts, the hosts joined by added events and the peeking servers; fails exactly when an event is missing or unreadable. |
| `Recipients.JoinServersExactly` | federationapi/consumers/roomserver.go:399-435 | A server is joined exactly if one of the events is a member event with a state key and membership "join" whose sender is a user of it. |
| `Recipients.HostsKept` | federationapi/consumers/roomserver.go:364-373 | The old hosts whose membership event is not removed. |
| `Recipients.RecipientsAreExact` | federationapi/consumers/roomserver.go:335-394 | If the old host list is the join memberships of the old state, and what the deltas cancel was already as it ends up, the event goes exactly to the servers joined in the state before it, and the peeking ones. |
| `Recipients.RecipientsAreJoined` | federationapi/consumers/roomserver.go:335-394 | Whatever the deltas, the event goes to the servers joined in the state that the folded delta leads to, and the peeking ones. |
| `Recipients.RewriteRecipients` | federationapi/consumers/roomserver.go:335-394 | For a rewrite the recipients are those joined in the new state or before; they are the right ones if and only if every server joined in the new state was joined or peeking before. |
| `Recipients.RewriteReachesNewcomer` | federationapi/consumers/roomserver.go:335-394 | A rewrite that sends the event to a server joined only in the new state. |
| `JoinedHosts.JoinedHostsTable.UpdateRoom` | federationapi/storage/shared/storage.go:56-90 | Adds, removes and purges rows as asked; returns the rows from before, or the rows just added when purging. |
| `JoinedHosts.NeededStateEventIDs` | roomserver/api/output.go:174-185 | Splits the added IDs into the event itself and the others, in order. |
| `JoinedHosts.JoinedHostsTable.AddedHosts` | federationapi/consumers/roomserver.go:171-202 | Succeeds exactly when the added events can be had and read, and then yields one row for each join among them. |
| `JoinedHosts.JoinedHostsTable.Follow` | federationapi/consumers/roomserver.go:204-231 | The table takes the step to the next state, and the rows of the old one come back, or those just written in a rewrite. |
| `JoinedHosts.ReachedHaveJoined` | federationapi/consumers/roomserver.go:335-394 | Every server that gets an event peeks, or has a join event in the old state or among the added events. |
| `JoinedHosts.JoinedHostsTable.ProcessMessage` | federationapi/consumers/roomserver.go:171-252 | Succeeds exactly when the added events can be had and read and, if the event is to be sent and the old host list is not empty, those of the state before too and the peeks; the table follows the room state exactly when the added events can be had and read, and else keeps; nobody gets an event that is not to be sent or finds an empty old host list, and else those of the folded delta do. |
| `JoinedHosts.TableFollows` | federationapi/storage/shared/storage.go:56-90 | After the table operations of one message, the table is exactly the join memberships of the state after it. |
| `JoinedHosts.MessageRecipients` | federationapi/consumers/roomserver.go:223-251 | For a well-formed message the servers handed over are the right ones if and only if: with an empty old host list, nobody is joined before the event or peeking; otherwise, in a rewrite, every server joined in the new state was joined or peeking before. |
| `JoinedHosts.PeekerMissesFirstEvent` | federationapi/consumers/roomserver.go:223-231 | A message without a rewrite that does not reach a peeking server. |
| `JoinedHosts.RepeatedRecipients` | federationapi/consumers/roomserver.go:204-251 | For an event sent in the state that was current, a repeated message leaves the table as it is and goes to the servers joined after the event, and nobody if there are none; the right ones are those joined before. |
| `JoinedHosts.RepeatedLeaveIsMissed` | federationapi/consumers/roomserver.go:223-251 | A leave that reaches the leaving server, and does not when its message is repeated. |
| `KeyLookup.KeyRing.HandleLocalKeys` | federationapi/internal/keys.go:97-144 | Exactly the requests for our own current or old keys leave the requests and enter the results. |
| `KeyLookup.KeyRing.FindLocalKey` | federationapi/internal/keys.go:104-143 | Our current key, else the first old key with the ID, else nothing. |
| `KeyLookup.KeyRing.FetchStored` | federationapi/storage/cache/keydb.go:38-61 | Cache hits that are still valid leave the requests, invalid entries leave the cache, rows of the table enter it; the answer is the hits and those rows. |
| `KeyLookup.KeyRing.HandleDatabaseKeys` | federationapi/internal/keys.go:148-178 | Stored answers enter the results, and exactly the requests with a row that is valid now leave, besides valid cache hits; it fails only when the database does and something was left to ask. |
| `KeyLookup.KeyRing.HandleFetcherKeys` | federationapi/internal/keys.go:182-249 | Whatever a fetcher replies, asked for or not, enters the results; no stored validity of a key that was asked for is lowered, and another one is lowered exactly by a reply that is stored over a longer validity. |
| `KeyLookup.KeyRing.FetchKeys` | federationapi/internal/keys.go:33-89 | The three stages one after the other; it fails only with the database; the first fetcher is asked exactly for what neither our own keys, nor valid cache entries, nor rows valid now settle; the table never goes down if every fetcher is harmless in its turn. |
| `KeyLookup.AnswersExactly` | federationapi/internal/keys.go:33-89 | Each request is answered by the last reply of a fetcher, else by our own key, else by a cache entry valid at the time asked about, else by the table. |
| `KeyLookup.FetchersAreAskedExactly` | federationapi/internal/keys.go:97-178 | The fetchers are asked exactly for the requests that are not for our own keys and have neither a cache entry valid at the time asked about nor a row that is valid now; so outdated rows are refreshed. |
| `KeyLookup.TurnIsExact` | federationapi/internal/keys.go:206-243 | A reply settles its request and becomes the result; it reaches the cache, and the table unless its upsert fails, exactly if there was no result or one of shorter validity. |
| `KeyLookup.CacheAtFetchers` | federationapi/storage/cache/keydb.go:38-61 | In the database stage rows asked for come into the cache, entries that did not answer go, and nothing else changes. |
| `KeyLookup.CallFailsExactly` | federationapi/internal/keys.go:148-160 | A call fails exactly if the database does and the cache leaves a request that is not for our own keys. |
| `KeyLookup.FailedCallExactly` | federationapi/storage/cache/keydb.go:38-61 | A call that fails has only dropped the cache entries that did not answer. |
| `KeyLookup.LocalKeyExactly` | federationapi/internal/keys.go:104-143 | Our current key has its validity and no expiry; else the first old key with the ID has its expiry and no validity. |
| `KeyLookup.ValidityEnds` | internal/matrixserver/keyring.go:66-94 | An expired key is valid before its expiry; another one up to its validity, but at most seven days from now. |
| `KeyLookup.StagesAccount` | federationapi/internal/keys.go:41-74 | After every stage each request is still open or has a result, and no result is taken back. |
| `KeyLookup.EveryKnownKeyIsFound` | federationapi/internal/keys.go:33-89 | A request is answered if and only if we own the key, it is stored or validly cached, or some fetcher replies to it in its turn. |
| `KeyLookup.TurnLowersExactlyWhen` | federationapi/internal/keys.go:206-234 | One fetcher's turn lowers a stored validity if and only if a reply for a key not asked for is stored over a longer validity; keys asked for are safe. |
| `KeyLookup.CacheFallsBehindExactlyWhen` | federationapi/internal/keys.go:206-240 | The cache falls behind the table if and only if such a reply reaches the cache and fails in the table. |
| `KeyLookup.RunSteadyExactlyWhen` | federationapi/internal/keys.go:33-89 | Over any run of lookups, failing databases, failing fetchers and evictions, the table never goes down at any moment if and only if every fetcher is harmless in its turn; then no stored validity is lower at the end. |
| `KeyLookup.RunInParts` | federationapi/internal/keys.go:33-89 | A run takes cache and table through its lookups and evictions one after the other. |
| `KeyLookup.ModestCallsAreSteady` | federationapi/internal/keys.go:61-74 | Fetchers that reply only what they are asked never lower the table. |
| `KeyLookup.DirectReplyCanLower` | federationapi/internal/keys.go:206-234 | A call, with a request open and a fetcher that replies all keys of the server asked, after which the row of another key of that server has a shorter validity. |
| `KeyLookup.AskedKeyCanGoDown` | federationapi/internal/keys.go:225-230 | Two fetchers in one call can lower the row of a key that was asked for. |
| `PushRules.PushRuleIndexByID` | clientapi/routing/pushrules.go:303-310 | The first index with the ID, or -1 exactly when there is none. |
| `PushRules.FindPushRuleInsertionIndex` | clientapi/routing/pushrules.go:334-372 | Succeeds exactly when the anchors exist in order and are no defaults, and then points at `before`, behind `after`, or at the front; each of the four errors occurs exactly for its cause. |
| `PushRules.PushRuleList.Put` | clientapi/routing/pushrules.go:133-162 | A successful put keeps IDs unique and all other rules in order, and places the rule as its anchors say, enabled if it is new; a failed one saves nothing. |
| `PushRules.PutIsDetermined` | clientapi/routing/pushrules.go:133-162 | The placement rules fix the whole resulting list. |
| `PushRules.PutThenDeleteRestores` | clientapi/routing/pushrules.go:133-189 | Putting a fresh rule and deleting it gives the list back. |
| `PushRules.NewRulesAreEnabled` | clientapi/routing/pushrules.go:140-152 | A rule that is new is enabled whatever the request says; one that replaces another is as the request says. |
| `PushRules.CannotAnchorToItself` | clientapi/routing/pushrules.go:146-159 | No rule can be placed before or after itself. |
| `PushRules.PushRuleList.Delete` | clientapi/routing/pushrules.go:171-196 | Removes exactly the rule with the ID, and fails exactly when there is none. |
| `Registration.CheckFlows` | clientapi/routing/register.go:948-979 | For all lists, sort and merge says yes if and only if the required stages are a sub-multiset of the completed ones. |
| `Registration.MergeStep` | clientapi/routing/register.go:964-978 | One turn of the merge does not change whether the rest is covered. |
| `Registration.CheckFlowCompleted` | clientapi/routing/register.go:984-995 | True if and only if some allowed flow is covered. |
| `Registration.FlowIgnoresOrderAndExtras` | clientapi/routing/register.go:981-995 | Order does not matter, and further stages never undo a completed flow. |
| `Registration.SessionFlow` | clientapi/routing/register.go:162-172 | For stages as a session records them, a flow is covered if and only if it repeats no stage and all its stages are recorded. |
| `Registration.SessionsDict.AddCompletedSessionStage` | clientapi/routing/register.go:162-172 | The stage is recorded once, behind the earlier ones, with a clean-up timer; other sessions are untouched. |
| `Registration.SessionsDict.AddParams` | clientapi/routing/register.go:96-101 | The parameters are stored, with a clean-up timer. |
| `Registration.SessionsDict.DeleteSession` | clientapi/routing/register.go:112-129 | Nothing of the session is left in any of the five maps, and nothing else changes. |
| `SessionTimers.GetsStuckExactlyWhen` | clientapi/routing/register.go:139-156 | For all calls and interleavings, a call hangs with the dictionary's mutex if and only if at some point startTimer reset a session whose timer had fired and whose deletion had not ended since. |
| `SessionTimers.StuckHoldsBackDeletion` | clientapi/routing/register.go:139-156 | The callback that would delete that session then waits for the same mutex. |
| `SessionTimers.StuckForEver` | clientapi/routing/register.go:139-156 | From then on no other call ever ends and no session is ever cleaned up. |
| `SessionTimers.ResetAfterFiringGetsStuck` | clientapi/routing/register.go:139-156 | A run of two goroutines that hangs. |
| `Pagination.PanicsExactlyWhen` | clientapi/routing/directory_public.go:223-245 | For every offset and limit of an int64: the slice is out of range exactly for an offset past the end, a sum that overflows, a negative limit at a non-negative offset, or a negative sum. |
| `Pagination.SomeSincePanics` | clientapi/routing/directory_public.go:116-140 | For every list and limit there is a `since` that is parsed and panics. |
| `Pagination.NegativeSincePanics` | clientapi/routing/directory_public.go:116-140 | `since=-5` with a limit of 3 is parsed and panics for every list. |
| `Pagination.PageShape` | clientapi/routing/directory_public.go:223-245 | A page holds the next rooms, `next` moves on by exactly them and is absent exactly on the last page, and `prev` of the following page leads back. |
| `Pagination.TokenRoundTrip` | clientapi/routing/directory_public.go:142-209 | Printing a position with its "T" and parsing it back gives the position. |
| `Pagination.ParseIntExactly` | clientapi/routing/directory_public.go:116-124 | A `since` is parsed exactly if it is an optional sign and digits within the range of an int64; a minus negates. |
| `Pagination.EveryNumberIsParsed` | clientapi/routing/directory_public.go:116-124 | Every int64 has a numeral that is parsed to it, with and without a plus sign. |
| `Pagination.TrimTExactly` | clientapi/routing/directory_public.go:209 | Exactly one leading "T" goes. |
| `Pagination.PrevLeadsBack` | clientapi/routing/directory_public.go:116-152 | Going on by the printed `next` token and back by the printed `prev` token leads to the same offset. |
| `Pagination.WalkIsTheCut` | clientapi/routing/directory_public.go:116-147 | Following the tokens yields the plain cut of the list into pages. |
| `Pagination.WalkVisitsEachRoomOnce` | clientapi/routing/directory_public.go:116-147 | From the start, following `next` shows every room exactly once, in order, and ends. |
| `PublicRooms.Dedupe` | clientapi/routing/directory_public.go:303-312 | IDs become distinct and none is lost; of each ID exactly the room that comes first stays. |
| `PublicRooms.DedupedExactly` | clientapi/routing/directory_public.go:306-312 | De-duplicating leaves distinct IDs, loses none, and keeps of each ID exactly the room that came first. |
| `PublicRooms.Shuffle` | clientapi/routing/directory_public.go:303-305 | The swaps of the positions from the last down to the second, each with a random one at or before it. |
| `PublicRooms.ShuffleKeepsAll` | clientapi/routing/directory_public.go:303-305 | A shuffle loses no room and adds none. |
| `PublicRooms.EveryOrderCanCome` | clientapi/routing/directory_public.go:303-305 | Every rearrangement of the rooms can come out of the shuffle. |
| `PublicRooms.SortByMembers` | clientapi/routing/directory_public.go:283-286 | A rearrangement with non-increasing member counts in which rooms of one size keep their order. |
| `PublicRooms.FilterRooms` | clientapi/routing/directory_public.go:155-172 | The loop computes the filtered list, whatever lower-casing does; an empty term keeps everything. |
| `PublicRooms.FilteredExactly` | clientapi/routing/directory_public.go:155-172 | Exactly the matching rooms stay, as often as they occurred. |
| `PublicRooms.MatchesExactly` | clientapi/routing/directory_public.go:155-172 | A room matches exactly if the term stands in its name, its topic or its alias, up to case, or is empty. |
| `PublicRooms.SearchShowsEachMatchOnce` | clientapi/routing/directory_public.go:116-172 | Following the pages of a search through a valid cache shows every matching room exactly once, big rooms first, and nothing else. |
| `PublicRooms.Directory.Refresh` | clientapi/routing/directory_public.go:247-288 | For any shuffle the cache has distinct IDs, non-increasing member counts and exactly the IDs of the inputs, with the rooms of one size in the order of the shuffle; a failed query leaves it as it was. |
| `PublicRooms.Directory.PublicRooms` | clientapi/routing/directory_public.go:109-153 | The answer is the page of the filtered cache with its tokens; only an empty `since` refreshes the cache. |
| `PowerLevels.PowerLevelContent.Update` | clientapi/routing/sendevent.go:265-292 | For any iteration order and any visits to inserted keys the rewrite ends; it succeeds exactly when no lookup fails, and then has exactly the new names with levels of keys that got them; without a clash no level is dropped even on an error. |
| `PowerLevels.PowerLevelContent.Rename` | clientapi/routing/sendevent.go:275-289 | The same for the range over the map alone; the result is that of visiting keys in some order that has them all. |
| `PowerLevels.OrderCanMatter` | clientapi/routing/sendevent.go:275-289 | Two users with one sender ID and different levels: the two orders of the range leave different levels. |
| `PowerLevels.LevelsKeptExactlyWhen` | clientapi/routing/sendevent.go:275-291 | Every level is kept under its new name if and only if keys that get the same name carry the same level. |
| `PowerLevels.OrderDoesNotMatter` | clientapi/routing/sendevent.go:275-291 | Then all iteration orders give the same map. |
| `PowerLevels.EntriesKeptExactlyWhen` | clientapi/routing/sendevent.go:275-291 | The number of entries stays the same if and only if no two keys get the same name. |
| `EventProviders.EventProvider.Provide` | federationapi/internal/perform.go:739-786 | The closure answers a list of IDs as the history of its books prescribes; it fails exactly at the first ID that does, with its failure, and whatever it accepts was in a reply, parsed and properly signed. |
| `EventProviders.EventProvider.AskFor` | federationapi/internal/perform.go:747-783 | One ID is answered from memory, refused, or fetched. |
| `EventProviders.EventProvider.TakeReply` | federationapi/internal/perform.go:767-783 | A reply is taken exactly if every PDU is parsed and has a good signature, and then its events are the answer, one by one; otherwise the first bad PDU gives the failure. |
| `EventProviders.OnlySignedEventsAreAccepted` | federationapi/internal/perform.go:767-783 | Over any sequence of calls and server answers, every accepted event was in a reply to a request, parsed and properly signed. |
| `EventProviders.FirstRequestExactly` | federationapi/internal/perform.go:755-783 | What the request for a new ID comes to: unreachable, a first bad PDU, or all its events. |
| `EventProviders.AskFailsExactly` | federationapi/internal/perform.go:745-786 | A call fails exactly if some ID does, after all IDs before it were answered, and with its failure. |
| `EventProviders.AskInParts` | federationapi/internal/perform.go:745-786 | The answer to a list of IDs is the answers to its parts, in order. |
| `EventProviders.OneMoreCall` | federationapi/internal/perform.go:733-738 | Calls take the books one after the other from where they were left. |
| `EventProviders.EachIdIsRequestedOnce` | federationapi/internal/perform.go:750-765 | Over any sequence of calls and server answers, each ID is requested at most once. |
| `EventProviders.ThePastDecides` | federationapi/internal/perform.go:747-765 | In every reachable state an ID with accepted events is answered with exactly them, one asked for in vain is refused, and only an ID new on both counts is requested. |
| `EventProviders.AnswersOnlyGrow` | federationapi/internal/perform.go:770-783 | An ID that was answered stays answered, and later answers extend earlier ones. |
| `EventProviders.RepeatIsRefusedExactlyWhen` | federationapi/internal/perform.go:747-783 | A successful first request is refused when repeated if and only if no event of the reply bears the ID asked for. |
| `EventProviders.RepeatCanBeRefused` | federationapi/internal/perform.go:747-783 | A server and a request that succeeds and is refused when repeated. |
| `RoomMutex.AtMostOneHolder` | internal/mutex.go:17-38 | In every interleaving of callers that unlock only what they locked, no two goroutines have the same room. |
| `RoomMutex.DisciplinedRunsNeverFail` | internal/mutex.go:29-38 | Such callers never make the lock panic or abort. |
| `RoomMutex.MutexNeverChanges` | internal/mutex.go:19-23 | A room keeps the mutex it once got, whatever callers do. |
| `RoomMutex.HeldUpExactlyWhen` | internal/mutex.go:17-38 | A goroutine inside Lock or Unlock waits if and only if another one is at the map, or it wants a room that is claimed; Unlock never waits for a room. |
| `RoomMutex.MapOwnerGoesOn` | internal/mutex.go:24-26 | Whoever has the map mutex can take its next step, so nobody waits for a room while holding the map. |
| `RoomMutex.OnlyCallersCanDeadlock` | internal/mutex.go:24-26 | If nobody inside Lock or Unlock can go on, each of them waits for a room that a caller has locked. |
| `RoomMutex.FailsExactlyWhen` | internal/mutex.go:29-38 | For all callers and interleavings, somebody has panicked or the program has aborted if and only if at some point an Unlock looked up a room that no Lock had looked up, or ended when as many Unlocks of the room as Locks had ended. |
| `RoomMutex.StepFailsExactlyWhen` | internal/mutex.go:29-38 | The same for the step in which it happens, panics and aborts apart. |
| `RoomMutex.LockedIsCounted` | internal/mutex.go:17-38 | As long as nothing aborts, a room is locked exactly when one more Lock than Unlocks of it has ended. |
| `RoomMutex.UnlockFirstPanics` | internal/mutex.go:29-34 | For every room, a run from the fresh lock whose first call unlocks it panics with the map locked. |
| `RoomMutex.UnlockTwiceAborts` | internal/mutex.go:29-38 | For every room, a run that unlocks it twice aborts. |
| `RoomMutex.PanicJamsEveryRoom` | internal/mutex.go:29-38 | Whatever led to such a panic, nobody who is not already past the map ever locks a room again. |

## Left out

- HTTP handling, JSON, SQL, logging, metrics, NATS, cryptography and room authorisation: plumbing, or code that is not part of this repository's own logic; requests, replies and query answers are parameters.
- Backoff lengths, blacklist thresholds and idle timeouts: a failure may blacklist or not, and timers and goroutines may begin at any time.
- `backgroundSend` as one method: the whole loop is covered by the step system; as code there is one undisturbed round (`HandleToken`).
- DestinationQueue.NextTransaction: does not model errors of the database clean-up, which the source only logs; the step system covers them as rows that stay.
- OutgoingQueues.SendEvent: runs alone, with the outcomes of the database given; in the step system storing, associating and each hand-over are separate actions.
- `SendEDU` of the queue collection, whose expiry times need a clock, and EDU no-loss: EDUs expire from the store, so no-loss is stated for PDUs only.
- StoredRows.NoRowIsForgotten: is stated for PDU rows, because EDU rows may expire at any time.
- Exactly-once delivery: a row can be loaded by the worker between association and `sendEvent`, so an item may be in memory twice; distinct receipts are stated for the scan only.
- The mutexes of the classes and of the key, directory and session state: their methods run one at a time here.
- Presence on joins, the purge of rooms and inbound-peek messages of the consumer.
- KeyRing.FetchStored: the cache may evict entries between calls (`Discard`) but not in the middle of one.
- A claim that the newest key is returned: a fetched result overwrites an earlier one whatever its validity.
- Push-rule attribute endpoints and the scope and kind selectors: easy members.
- Pagination.PageShape: stated for lists shorter than 2^62; longer ones do not fit into memory.
- SessionsDict.AddCompletedSessionStage: runs alone, so that its timer never fires in the middle; `SessionTimers` has the timers and the mutex without the other maps.
- SessionsDict.AddParams: runs alone in the same way.
- PowerLevels.PowerLevelContent.Update: requires that sender IDs are no user IDs; it is called only in rooms of the pseudo-ID version.
- `RoomMutex`, `QueueProtocol`, `BackoffTimer`, `Receiver` and `SessionTimers` are step systems on values rather than classes, because their properties are about interleavings; fairness and liveness in time are not stated.
