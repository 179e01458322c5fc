# Verified model of webhook-telegram-proxy

webhook-telegram-proxy takes Grafana/Alertmanager webhooks, persists each as a row of an SQLite table
(the outbox), and delivers it to Telegram with retries, restart recovery and rotation of old rows. This
project models that outbox and the algorithms around it in Dafny and proves what holds of them.

## What is modelled

**The outbox as a step system** (`Deliveries`, `Outbox`, `OutboxInvariant`, `OutboxTheorems`). The state
is the `deliveries` table, the live goroutines with the record each of them claimed and the statement it
comes to next, the ids a rotation round has selected, and a clock. One SQL statement or one Telegram call
is one step, because the pool is pinned to one connection; everything else interleaves freely: webhook
handlers, the recovery worker, the rotation job, store writes that fail, acknowledgements that get lost,
goroutines that vanish, crashes and restarts. An action that is not enabled changes nothing, so *every*
sequence of actions is a run, and the theorems are about all of them. A per-event history (what Telegram
accepted, how each claim ended, when the row left the table) is kept beside the state and read by no step.

Assumptions: a failed store write leaves its row as it was; event ids are fresh; the clock never goes back.
A timestamp that the code samples before a statement (`at`) may be older than the statement; the updated_at of
rows that are not final, which no statement here reads, is the time of the statement.

**One hypothesis.** `MarkQueued` has no status gate, while a row can be claimed as soon as it is inserted.
A run is `Disciplined` when no `MarkQueued` hits a row that someone owns or that is final.
`MarkQueuedSafeIff` shows that this is exactly when the statement is harmless, and two concrete runs show
what happens otherwise: the same part is sent twice although nothing failed, and rotation deletes a row
that is waiting to be sent. The project documentation ("cleanup never removes records that may still be
needed for delivery") and the comment on `ClaimForSend` ("two workers cannot claim the same record")
promise more than the code keeps here.

**The code that takes the steps** (`Storage`, `Interference`, `Calm`, `Attempts`, `Passes`, `Rotation`,
`RotationRuns`, `Delivery`, `Recovery`, `Ingress`). `Store` is a class with one method per statement; `DeliveryService` and `AlertService` follow
`ProcessEventByID`, `RecoverPending`, `RotateStore`, `EnsureCapacity` and `AcceptWebhook` statement by
statement. Between two statements other goroutines do whatever an `Env` makes them try. Each method books
what it does as steps of the system, and `Valid()` says that the current state is reached by those steps, so
every theorem about reachable states applies to every state the methods pass through.

**Message building** (`Splitter`, `Packing`, `Chunking`, `Reserve`, `ShippedTemplate`). Splitting plain
text, and packing alerts into chunks in template mode. Template execution is a function parameter; a `char`
is a rune. The comment on `buildMessages` speaks of byte length; the code counts runes, and so does the
model. The comment that the 16-rune reserve covers the part line is wrong for the shipped template, whose part line has 22 runes or
more: `Reserve.ReserveIff` says when the reserve is enough, `ShippedTemplate` models the shipped head with its
counters, shows for which batches the sizes measured one by one add up, and that for every part count some
batch is rejected.

**Draining the queue.** Recovery lists the oldest due rows first. As long as the listings stay within the
smallest backoff (half the base delay) of the start, nothing that failed can come due again, and
`RunRecovery` empties the queue in ceil(due / batch) passes. Beyond that it need not: `TwoPassesMissOne`.

**The idempotency fingerprint** (`StringOrder`, `Fingerprint`). The canonical string that is hashed, with
its sorting; SHA-256 and the time format are function parameters.

**Backoff** (`Backoff`) over wrapping signed 64-bit durations.

Event ids and idempotency keys are natural numbers in the outbox: only their equality matters. Columns
that are written and never read (rendered_message, last_error, telegram_chat_id, last_attempt_at) and the
stored payload are not part of the row. The comment at delivery_service.go:553 says an aborted send does
not burn an attempt; the next claim increments attempt_count all the same, and the model follows the code.

## Model

| member | source | states |
|---|---|---|
| `OutboxInvariant.MoveKeeps` | internal/service/delivery_service.go:158-290 | every statement and Telegram call of an owner keeps the event's invariant (log, counters, ownership) and never changes persisted parts, lowers progress or touches a final row |
| `OutboxInvariant.StepKeeps` | internal/store/sqlite.go:184-439 | every step of the system, including crash, restart and rotation, keeps the global invariant when MarkQueued is gated |
| `OutboxInvariant.RunKeeps` | internal/service/delivery_service.go:71-95 | the invariant and the monotone evolution of every row hold over whole disciplined runs |
| `OutboxTheorems.ExclusiveOwnership` | internal/store/sqlite.go:308-334 | in every reachable state a row has at most one live owner; it is in `sending`, its attempt_count is the owner's, its parts and sent_parts are the owner's parts and next index |
| `OutboxTheorems.AtLeastOnceInOrder` | internal/service/delivery_service.go:189-236 | accepted part indices never decrease, every part below sent_parts was accepted, and a delivered event has had all its parts accepted |
| `OutboxTheorems.DuplicatesAreCharged` | internal/service/delivery_service.go:189-223 | a part is accepted at most once plus the faults charged to it, and exactly that often when nobody owns the event |
| `OutboxTheorems.ChargesAreTheFaults` | internal/service/delivery_service.go:206-222 | the charges are exactly the lost acknowledgements, failed chunk writes and vanished goroutines that occur in the run |
| `OutboxTheorems.FaultFreeLogIsPrefix` | internal/store/sqlite.go:269-306 | without such faults the log of an event nobody owns is its recorded prefix, each part once, in order |
| `OutboxTheorems.OneRendering` | internal/service/delivery_service.go:249-290 | every accepted message is the persisted part of its index; without persisted parts nothing was sent and sent_parts is 0 |
| `OutboxTheorems.RowsOnlyEvolve` | internal/store/sqlite.go:336-411 | between any two states of a run persisted parts never change, sent_parts and attempt_count never fall, and final rows stay as they are |
| `OutboxTheorems.RetryBudget` | internal/service/delivery_service.go:545-613 | attempt_count is the number of claims made in the run, and claims = reschedules + interruptions + the live one + the last one, each counted off the run's actions; at most maxAttempts - 1 claims end in a rescheduled send error; an unowned event with maxAttempts claims beyond its interruptions is final |
| `OutboxTheorems.OrphanedIffStranded` | internal/service/delivery_service.go:158-240 | a row is in `sending` with nobody sending it if and only if the closing write of its last claim failed or its goroutine vanished, and neither a restart nor its MarkQueued came after |
| `Interference.RetryAfterRespected` | internal/service/delivery_service.go:545-613 | a send error, any steps of the others, and the closing write: the row is dead letter exactly when attempts are exhausted, failed exactly when the error is fatal, and otherwise waits the larger of backoff and retry_after counted from the send; parts and progress are those at the send |
| `Interference.ForeignKeepsOwnRow` | internal/service/delivery_service.go:158-240 | over any steps of the others the row a goroutine has claimed is neither changed nor deleted |
| `OutboxTheorems.RestartRecovers` | cmd/server/main.go:51-56 | a crash at any reachable state followed by a restart leads to a reachable state with the same events and no goroutine; every row is claimable or final, what was in `sending` is due at once with its parts, progress and attempts, other rows are untouched, and a received one is due too |
| `OutboxTheorems.WaitingFallsDue` | internal/store/sqlite.go:441-454 | in every reachable state a received row has no retry time and is due at once, a queued or retry_scheduled one has a retry time and is due exactly from then on, and no other row is ever due |
| `OutboxTheorems.RestartPossible` | cmd/server/main.go:51-56 | from every reachable state a crash can be followed by such a restart |
| `OutboxTheorems.NoLiveRecordLost` | internal/store/sqlite.go:522-588 | every event ever inserted is in the table, or was final and past the retention of its state when it was removed |
| `OutboxTheorems.DeleteHitsFinalRows` | internal/store/sqlite.go:560-588 | the ungated DELETE of a rotation round, whatever ran since its SELECT, only hits final unowned rows past their retention |
| `OutboxTheorems.OneRowPerKey` | internal/store/migrations.go:6 | at most one row per idempotency key in any reachable state |
| `OutboxTheorems.InsertWaitsForRetention` | internal/service/alert_service.go:97-111 | an insert under a known key is possible only when every earlier event of that key has left the table, final, with its retention over since the updated_at of its last write |
| `OutboxTheorems.DedupOverTime` | internal/service/alert_service.go:58-111 | of two different events that ever shared a key, one had outlived its retention when the other was inserted: the one inserted earlier, when the times differ |
| `OutboxTheorems.MarkQueuedSafeIff` | internal/store/sqlite.go:229-231 | MarkQueued keeps ownership and final rows intact if and only if its row is neither owned nor final |
| `OutboxTheorems.ClaimableGateSuffices` | internal/store/sqlite.go:650-661 | on a row with a claimable status MarkQueued is always harmless, so a status gate in its WHERE clause would make every run disciplined |
| `OutboxTheorems.UngatedMarkQueuedSendsTwice` | internal/service/alert_service.go:105-116 | a run without any fault in which two workers own one row and its first part is accepted twice |
| `OutboxTheorems.UngatedMarkQueuedLosesRecord` | internal/service/delivery_service.go:321-339 | a run in which a final row is queued again between the SELECT and the DELETE of a rotation round and is deleted while it waits |
| `Storage.Store.CreateReceived` | internal/store/sqlite.go:184-227 | inserts exactly when the statement runs and neither id nor key is taken, a received row without parts, attempts and retry time; otherwise reports which and leaves the table alone |
| `Storage.Store.ClaimForSend` | internal/store/sqlite.go:311-334 | claims exactly the received, queued and retry_scheduled rows: sending, one more attempt, no retry time; returns the new row |
| `Storage.Store.MarkQueued` | internal/store/sqlite.go:229-231 | whole new table: only the row of this id changes, whatever its status |
| `Storage.Store.SaveRenderedParts` | internal/store/sqlite.go:336-358 | whole new table: the parts and their number are set, nothing else but updated_at |
| `Storage.Store.MarkChunkSent` | internal/store/sqlite.go:360-388 | whole new table: sent_parts set, the first message id kept once known |
| `Storage.Store.MarkDelivered` | internal/store/sqlite.go:390-411 | whole new table: delivered, all parts sent, no retry time |
| `Storage.Store.ScheduleRetry` | internal/store/sqlite.go:413-431 | whole new table: retry_scheduled for the given time |
| `Storage.Store.MarkTerminal` | internal/store/sqlite.go:669-690 | whole new table: the final status, no retry time |
| `Storage.Store.RequeueSending` | internal/store/sqlite.go:276-306 | every `sending` row becomes queued and due, no other row changes |
| `Storage.Store.ListDueEventIDs` | internal/store/sqlite.go:441-478 | received, queued and retry_scheduled rows without a retry time or with one that has come, by creation time, distinct, at most limit; one is left out only if limit others are listed, none of them younger |
| `Storage.ListedIff` | internal/store/sqlite.go:443-454 | with distinct creation times a due event is listed if and only if fewer than limit due events are older |
| `Storage.Store.SelectRotatable` | internal/store/sqlite.go:522-558 | the same for delivered rows up to the first cutoff and failed or dead ones up to the second, by time of last change |
| `Storage.Store.DeleteByEventIDs` | internal/store/sqlite.go:560-588 | removes the ids in batches of 500; on failure exactly the batches before the failing one are removed, on success all |
| `Delivery.DeliveryService.Yield` | internal/service/delivery_service.go:158-240 | other goroutines may take any disciplined steps between two statements and cannot change this goroutine's own state |
| `Delivery.DeliveryService.EnsureRenderedParts` | internal/service/delivery_service.go:249-290 | returns the persisted parts, or persists the freshly built ones, exactly those, before anything is sent; on failure the claim is closed |
| `Delivery.DeliveryService.Finish` | internal/service/delivery_service.go:545-613 | the closing write gives the row exactly the status and retry time of its goal, with the updated_at sampled at the call, before others run; when it fails the row is as it was |
| `Delivery.DeliveryService.HandleSendError` | internal/service/delivery_service.go:545-613 | the row becomes failed, dead letter or retry_scheduled exactly as the error and the attempts prescribe, with the retry time of the larger wait; when the write fails it stays in `sending` unchanged; the claim is closed |
| `Delivery.DeliveryService.SendPart` | internal/service/delivery_service.go:189-223 | sends the next part and records it; otherwise the claim ends in what the send error prescribes, or in a retry when the record fails |
| `Delivery.DeliveryService.ProcessEventByID` | internal/service/delivery_service.go:158-240 | under any interference between its statements: the attempt claims its event unless the row is not claimable, and every way the claim can end (delivered, not buildable, save, send, record or completion failed) occurs exactly when the environment causes it and leaves the status, retry time, parts, progress and attempts that belong to it; no claim is left behind; completed means all parts accepted; in a calm environment its event leaves the rows due at any time within the smallest backoff and none joins them |
| `Delivery.DeliveryService.RecoverPending` | internal/service/delivery_service.go:138-156 | lists the oldest due events up to the batch size in a state of the run and makes an attempt as above at each, in that order, none after the context is cancelled; for any horizon from the listing time up to the smallest backoff with no row falling due in between, in a calm environment with a live context min(batch, due) events leave the set due at the horizon and none joins it |
| `Delivery.DeliveryService.RunRecovery` | internal/service/delivery_service.go:71-95 | each round is a pass as above, the last one cut short only by a cancelled context; n passes, listing at any instants up to the horizon, leave at most max(0, due - n * batch) events due at the horizon; ceil(due / batch) passes empty it |
| `Recovery.TwoPassesMissOne` | internal/service/delivery_service.go:138-156 | a concrete run: two events due, batch 1, the second pass lists exactly the smallest backoff after the first; both passes take the older event and the newer one is passed over, so the horizon cannot be moved |
| `Delivery.DeliveryService.RotateRounds` | internal/service/delivery_service.go:314-347 | under fixed cutoffs, while other goroutines run, the loop stops at the first measurement at or below the low watermark, or when nothing is rotatable, and ends in an error when its context is cancelled; k rounds remove min(100 * k, rotatable) rows, those unchanged longest first, and the counts per state are those of exactly the rows that left the table |
| `Delivery.DeliveryService.RotateStore` | internal/service/delivery_service.go:295-390 | terminates while other goroutines run; skipped exactly when disabled or below the high watermark; an exit without error means the loop stopped as above under the sampled cutoffs, and the per-state counts sum to the rows removed, which are exactly the events present or inserted since and no longer in the table |
| `Delivery.DeliveryService.EnsureCapacity` | internal/service/delivery_service.go:97-136 | below the high watermark it accepts and changes nothing; above it, with rotation enabled, it accepts only after a rotation as above ran or measured the store below that mark; it accepts only at or below the hard limit, and always then unless rotation or a measurement fails; whatever left the table meanwhile was final and past its retention |
| `Rotation.BystanderRun` | internal/service/delivery_service.go:311-347 | under fixed cutoffs steps of other goroutines leave the set of rotatable rows and every final row as they are, provided none makes a row final with a time sampled at or before its cutoff |
| `Rotation.RotatableGrowsIff` | internal/store/sqlite.go:390-411 | one step of the system makes a row rotatable under fixed cutoffs if and only if it is a MarkDelivered, MarkFailed or MarkDeadLetter that succeeds with a time sampled at or before its cutoff |
| `Rotation.LateFinalWrite` | internal/store/sqlite.go:669-690 | a final write, of whatever kind, that waits for the whole retention after its time was sampled leaves a row that is rotatable at once |
| `Rotation.TallyTotal` | internal/service/delivery_service.go:331-335 | the per-state counts sum to the number of rows removed |
| `Calm.CalmRun` | internal/service/delivery_service.go:545-623 | without arrivals and aborts, and with every retry at least the smallest backoff away, whatever is due at a horizon within that backoff was due, unchanged, all along |
| `Ingress.AlertService.AcceptWebhook` | internal/service/alert_service.go:46-136 | every answer is about a persisted event of the key with the status of its row; an event in the table under the key is the one answered, as duplicate, unless it has left the table past its retention; a non-duplicate answer is about an event that this handler inserted, queued and claimed by steps of this call, in that order; a duplicate answer is about a final event or one that this call claimed; a full store is refused; when no statement of the handler fails it is answered, unless an event of the key that was there or came in during the call was rotated away; when nobody else acts, the answer to a new or waiting event is the status its attempt leaves, 200 if that is final, 502 for a new event whose first attempt ends in a retry, else 202; it starts over as often as the key is taken by others, here finitely often by assumption |
| `Ingress.AlertService.AcceptNew` | internal/service/alert_service.go:91-136 | insert, MarkQueued and claim of the new event are steps of this call in that order; when nobody else acts the answer is as the first attempt ended: 200 delivered, failed or dead, 502 for a retry |
| `Ingress.AlertService.AcceptKnown` | internal/service/alert_service.go:64-89 | a webhook whose event is final is answered at once and changes nothing; otherwise this call claims the event, and when nobody else acts the answer is as that attempt ended, 200 or 202 |
| `Ingress.AlertService.LoadAcceptResult` | internal/service/alert_service.go:138-162 | 200 for final rows, 202 for pending ones, an error when the row is gone |
| `Packing.Pack` | internal/service/delivery_service.go:452-467 | the chunks are non-empty, in order and complete, each within the budget, and no chunk could have taken the next item |
| `Packing.GreedyIsMinimal` | internal/service/delivery_service.go:452-467 | no split into consecutive groups within the budget uses fewer chunks |
| `Packing.GreedyUnique` | internal/service/delivery_service.go:452-467 | the loop's result is the only split that is greedy and within the budget |
| `Chunking.CloneWithAlerts` | internal/template/renderer.go:253-270 | the copy carries these alerts, counted anew by status, and the part numbers |
| `Chunking.BuildData` | internal/template/renderer.go:193-251 | every alert converted in order, counters over the raw statuses, part 1 of 1 |
| `Chunking.BuildMessages` | internal/service/delivery_service.go:395-485 | a batch that fits is one message; otherwise one message per chunk of a minimal greedy chunking; success means at least one part, each within 4096 runes, and no alert alone above 4096 - 16; each error implies its cause: a failed rendering among those made, a header, an alert alone, or a chunk that itself rendered to more than shell, reserve and its measured alerts |
| `Chunking.FinalCheck` | internal/service/delivery_service.go:413-482 | if no chunk of the batch renders to more than shell, reserve and its measured alerts, the final size check passes |
| `Chunking.CountersConserved` | internal/template/renderer.go:253-270 | the firing and resolved counters shown in the parts add up to those of all alerts |
| `Reserve.ReserveIff` | internal/service/delivery_service.go:413-482 | for a template whose part number changes nothing but a part line, on a family of batches whose measured sizes add up and that has full batches: the final size check never fires on up to max chunks if and only if line(i, n) has at most 16 runes for all 1 <= i <= n <= max, n > 1 |
| `Reserve.FullPartLength` | internal/service/delivery_service.go:469-482 | a part with one alert that fills the budget exceeds the limit by exactly what its line exceeds the reserve |
| `ShippedTemplate.PartLength` | internal/template/renderer.go:180-191 | of a part line, a head, the bodies and a tail that do not begin or end in space only the empty line after the head is ever trimmed, so a part is as long as they are together |
| `ShippedTemplate.SubadditiveIff` | templates/telegram_alert.tmpl:5-6 | under the shipped head with its counters the measured sizes of alerts add up for all batches that leave out k alerts if and only if k is 0 or k + 1 has more digits than k |
| `ShippedTemplate.ShippedReserveIff` | templates/telegram_alert.tmpl:1-60 | the shipped template with any part line, on those batches: the final size check never fires on up to max chunks if and only if the part lines of up to max parts have at most 16 runes |
| `ShippedTemplate.ShippedReserveTooSmall` | templates/telegram_alert.tmpl:1-60 | on all other batches a line of exactly 16 runes already gets a batch of two parts rejected |
| `ShippedTemplate.ShippedLineTooLong` | templates/telegram_alert.tmpl:1-60 | with the shipped template, for every part count and every number of left-out alerts some batch is rejected by the final check |
| `ShippedTemplate.ShippedFirstOfTwo` | templates/telegram_alert.tmpl:1-4 | the line of part 1 of 2 is the shipped text and has 22 runes |
| `ShippedTemplate.ShippedFullPart` | internal/service/delivery_service.go:469-482 | with the shipped template part i of n full parts exceeds the limit by 4 runes plus the digits of i and n, six for part 1 of 2 |
| `Splitter.LastFittingCut` | internal/service/delivery_service.go:525-543 | the last space, tab or newline among the first limit runes but not the first, or limit if there is none, or the whole message if it fits |
| `Splitter.TrimIsTrim` | internal/service/delivery_service.go:498-523 | trimming takes off exactly the white space at both ends |
| `Splitter.SpaceCodes` | internal/service/delivery_service.go:498-523 | white space is the 25 code points of unicode.IsSpace |
| `Splitter.SplitMessage` | internal/service/delivery_service.go:498-523 | terminates with the parts whose properties the next three rows state |
| `Splitter.PartsWeave` | internal/service/delivery_service.go:498-543 | the message is its parts interleaved with whitespace-only gaps; parts are non-empty, trimmed and at most limit runes; a gap is empty only after limit runes without space, tab or newline |
| `Splitter.TwoCutsAdvance` | internal/service/delivery_service.go:504-520 | two consecutive cuts consume at least limit runes |
| `Splitter.PartsBound` | internal/service/delivery_service.go:498-543 | n runes yield at most 2 * floor((n-1)/limit) + 1 parts |
| `Splitter.BuildPassthroughMessages` | internal/service/delivery_service.go:487-496 | the parts are those of the trimmed message, or of the trimmed title when the message is blank; they hold the whole text, fit, and are few; it fails exactly when both are blank |
| `StringOrder.SortedUnique` | internal/service/alert_service.go:198-213 | sorted lists of the same strings are equal |
| `StringOrder.LeqIsLexicographic` | internal/service/alert_service.go:198-213 | the order is that of the first differing rune, a beginning before the whole |
| `Fingerprint.StableMapString` | internal/service/alert_service.go:205-220 | the string is the same for every iteration order of the map |
| `Fingerprint.ComputeFingerprint` | internal/service/alert_service.go:164-203 | the key is the hash of the canonical string of the payload |
| `Fingerprint.CanonicalLayout` | internal/service/alert_service.go:164-203 | the canonical string written out field by field |
| `Fingerprint.AlertLayout` | internal/service/alert_service.go:185-199 | the string of an alert written out field by field |
| `Fingerprint.MapStringLayout` | internal/service/alert_service.go:205-220 | a map is written key by key in order, `key=value`, with commas between |
| `Fingerprint.CanonicalUnderPermutation` | internal/service/alert_service.go:185-199 | any permutation of the alerts has the same canonical string |
| `Fingerprint.MapStringInjective` | internal/service/alert_service.go:205-220 | maps without an equals sign in keys and a comma in values can be told apart by their strings |
| `Fingerprint.CanonicalInjective` | internal/service/alert_service.go:164-220 | equal canonical strings of payloads without bars, equals signs in map keys and commas in map values imply equal header fields and maps and the same multiset of alerts |
| `Fingerprint.HeaderAmbiguousIff` | internal/service/alert_service.go:164-184 | whatever its maps and alerts, a payload has the canonical string of another one that differs in the header strings only, if and only if one of its six header strings holds a bar |
| `Backoff.ComputeDelay` | internal/service/delivery_service.go:642-658 | the wrapping 64-bit loop returns the capped doubling over unbounded integers for all attempts and 0 < base <= max, max when base exceeds it, and base below the first attempt |
| `Backoff.DelayDoubles` | internal/service/delivery_service.go:642-658 | the first delay is the base, and each later one twice the one before, up to max |
| `Backoff.ComputeBackoff` | internal/service/delivery_service.go:615-623 | the jittered wait lies between half the delay and the delay, so it is never below half the base |
| `Backoff.DelayMonotone` | internal/service/delivery_service.go:640-658 | the delay never falls with the attempt and lies between base and max |

## Left out

- HTTP routing, authentication, response writing, metrics, logging and configuration parsing: no protocol content.
- The Telegram client: only its outcomes (acknowledged, or an error with or without acceptance) appear.
- SQLite itself, VACUUM, WAL checkpoints and file sizes: a table as a map, sizes as arbitrary inputs.
- Decoding of stored payloads, label and time formatting, HTML escaping, SHA-256, random ids: parameters of the model.
- The rounding of floats in the jitter of `computeBackoff`. In the step system the wait of a retry is any natural number; the recovery results assume it is at least half the base delay, as Backoff.ComputeBackoff guarantees.
- The metrics, VACUUM and WAL checkpoint at the end of `RotateStore`: nothing but measured sizes.
- `Store.Requeue` and `DeleteTerminalBefore`: not called by the service.
- Retries before next_retry_at: `ClaimForSend` does not test it and a duplicate webhook claims at once, so no such claim is made.
- Delivery.DeliveryService.RunRecovery: nothing is claimed for listings beyond the smallest backoff; which due row such a listing takes is Storage.ListedIff, and Recovery.TwoPassesMissOne shows one that passes over a row due all along.
- The failure of the SELECT in `RecoverPending`: the pass then does nothing.
- Delivery.DeliveryService.RotateStore: no final write with a time sampled at or before its cutoff succeeds while it runs, that is, no statement waits longer than the retention; by Rotation.RotatableGrowsIff this is exactly what keeps rows from becoming rotatable late.
- Rotation.BystanderRun: the same condition; Rotation.LateFinalWrite shows the contrary.
- Ingress.AlertService.AcceptWebhook: its MarkQueued comes at a moment when its row is neither owned nor final, though others may have claimed it and given it back before; the consequences of the contrary are the two UngatedMarkQueued runs. Others take the key from under it finitely often; the code itself has no bound.
- ShippedTemplate.ShippedReserveIff: negative numbers of left-out alerts, and headers too long for a body of more than 16 runes beside the reserve.
- Fingerprint.CanonicalInjective: one direction only for bars in maps and alerts and for separators in maps; for bars in the header strings HeaderAmbiguousIff is exact.
