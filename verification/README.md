# Flash-sale pipeline: verified model

A Dafny model of a flash-sale system in which each email may buy one unit. An
atomic Redis script decides every order; accepted orders travel over a Redis
stream to a worker that writes an audit trail to MongoDB; a broadcaster reports
the sale's status to browsers over server-sent events (section 9.2 of the WHATWG
HTML Living Standard), and a client hook keeps a page honest while streams come
and go. `dafny verify dfyconfig.toml` checks all of it.

The parts that hold state are classes with the fields of the original, each
method proved equal to a step function on values; runs of those steps, with
crashes, lost replies and interleavings, carry the theorems. An object of the
event-driven classes is valid when some run leads to its state, so the theorems
hold of the objects as well.

| file | part of the system |
|---|---|
| `Ids.dfy` | identifiers, `Option` |
| `AuditStore.dfy`, `BulkAudit.dfy`, `CrossSale.dfy`, `Recorder.dfy`, `AuditDb.dfy` | the three audit collections, the five-phase bulk write, what it does to an email under two sales, the one-order recorder, and both writers in place |
| `OrderWorker.dfy` | the worker loop, its consumer group, backoff and drain |
| `Pipeline.dfy`, `PipelineDrain.dfy` | script, stream, pending lists, workers and database as one transition system, and that it can always be drained |
| `OrderScript.dfy`, `Attempts.dfy`, `OrderService.dfy`, `SaleStatus.dfy` | the decision, its unreliable connection, the request around it, the status |
| `Boot.dfy` | flat-key migration and cold rebuild, write by write |
| `SaleEvents.dfy`, `SseRoute.dfy`, `SseDelivery.dfy`, `WindowTimers.dfy` | broadcaster, one SSE connection, the two together, boundary timers |
| `SaleStatusHook.dfy` | the client's channel machine |
| `Judge.dfy`, `SaleResolver.dfy` | the stress verdict, the choice of the sale and its caches |

Where time matters it is an integer that does not go back, and a timer never
fires before it is due; results that need timers not to be late say so. Redis
and MongoDB are abstract state whose single commands, script runs and
single-document upserts are atomic.

## What does not hold

Some promises of the source hold only under a condition. For each one the
condition is proved to be exact, and inputs or runs that fail it are given.

- `orderIdByEmail` (server/src/adapters/mongo/bulk-audit.ts:96) is keyed by email
  only. With an email under two sales in one batch, one order stays without its
  line and its product is billed to the other. `CrossSale.RecordsThisStoreIff`
  gives the condition for each store, `RecordsEveryStoreIffOneSalePerEmail` the
  one for all stores.
- The one-order recorder never repairs an order whose line was lost between its
  two inserts; the bulk write does. The two agree exactly if there is no such
  order (`Recorder.BulkRefinesRecorder`, `OnlyBulkHealsAnOrphan`).
- `sale.sold_out` is published exactly if the draining call's reply arrives
  (`Attempts.SoldOutIffDrainingReplyArrived`, `TimedOutDrainPublishesNothing`).
  Otherwise nobody publishes it, and the broadcaster's safety net tells the
  streams (`SaleEvents.SafetyNetHeals`).
- "An order holder always wins" (server/src/services/order.ts:86) fails inside the
  window exactly if the stock key is unreadable or negative
  (`OrderService.HolderWinsIff`), and across a cold rebuild exactly for the emails
  MongoDB does not confirm (`ColdRestartKeepsHolderIff`, `ColdRestartMayForget`).
- Status and order verdict disagree exactly on a negative count inside the window
  and an unreadable one outside it (`OrderService.StatusAndVerdictAgreeIff`).
- A flat-key migration that dies between its two renames loses the flat buyers at
  the next boot (`Boot.CrashedMigrationIff`) and adds capacity exactly if the
  leftover namespaced set is the larger one (`LosingMembersAddsCapacityIff`).
- A boot that rebuilds on a sentinel test older than another boot's completion
  forgets exactly the buyers MongoDB did not confirm to it
  (`Boot.LateRebuildKeepsBuyerIff`); two that only overlap agree
  (`OverlappingBootsAgree`).
- "Always the final frame" (server/src/services/sale-events.ts:5) is true of a
  terminal event exactly until another event is heard
  (`SaleEvents.TerminalEmitIsTheLastIff`, `TerminalFrameIsNotAlwaysTheLast`).
- A client's frames are in read order exactly if no broadcast was being read when
  it registered, or it got none (`SseDelivery.BodyIsInReadOrderIff`,
  `BufferedFrameMayBeOlder`).
- "Every timer is torn down" (client/src/hooks/useSaleStatus.ts:19) is true of an
  unmounted page only, and a not-found page is done changing exactly under
  `SaleStatusHook.NotFoundPageIsFrozenIff` (`NotFoundKeepsItsWatch`,
  `NotFoundPageMayChange`).
- The stream is the sole writer of a live page exactly if no re-sync of a recovery
  is in flight (client/src/hooks/useSaleStatus.ts:201;
  `SaleStatusHook.SoleWriterIffNoResync`, `ResyncMayRewindALivePage`).
- The lookup behind `findActive` does not look at the clock
  (server/src/bootstrap.ts:184-186): the sale chosen at boot is served for the life
  of the process. Among disjoint windows it stays the right one exactly until its
  window ends, or for good if no listed one ends later
  (`SaleResolver.BootChoiceIsServed`, `EndedSaleIsStillServed`).

## Model

| member | source | states |
|---|---|---|
| AuditStore.UpsertUserStep | server/src/adapters/mongo/bulk-audit.ts:28-38 | A user upsert keeps the store sound, keeps every id, and makes the email known |
| AuditStore.UpsertOrderStep | server/src/adapters/mongo/bulk-audit.ts:49-73 | An order upsert keeps the store sound and leaves the order owned by the user of its email |
| AuditStore.UpsertLineStep | server/src/adapters/mongo/bulk-audit.ts:100-134 | A line upsert leaves exactly one line per order and product and never overwrites a price |
| AuditStore.RecordsDeterminesContents | server/src/adapters/mongo/bulk-audit.ts:23-135 | Two stores grown from the same one and complete for the same payload set are equal by natural key |
| BulkAudit.StoppedGrows | server/src/adapters/mongo/bulk-audit.ts:28-134 | A bulk write stopped in any phase with any part of its unordered upserts applied keeps the store sound and adds only what its payloads ask for |
| BulkAudit.BulkRecords | server/src/adapters/mongo/bulk-audit.ts:23-135 | A completed bulk write records every payload of the batch, every foreign key resolving to its owner |
| BulkAudit.ResolvesRightOrder | server/src/adapters/mongo/bulk-audit.ts:80-98 | With one sale per email, the email map of phase 4 gives each payload the order of its own sale |
| BulkAudit.DeliverAllGrows | server/src/adapters/mongo/bulk-audit.ts:23-135 | Any history of deliveries, split, repeated, reordered or cut, ends in exactly the records of its payload set once each payload was carried through, in whatever order the server applied the upserts |
| BulkAudit.ExactlyOnceEffect | server/src/adapters/mongo/bulk-audit.ts:23-135 | Two such histories of one payload set leave the same contents |
| BulkAudit.RetryConverges | server/src/adapters/mongo/bulk-audit.ts:23-135 | Any number of interrupted tries and one full run leave what one undisturbed run leaves, all in any order of their upserts |
| CrossSale.LinesAfterwards | server/src/adapters/mongo/bulk-audit.ts:80-134 | On any sound store, after a full write in any order: the order of an email's last-listed sale has one line for each product any payload of the email names, every other order has the lines it had |
| CrossSale.WinnerCameLast | server/src/adapters/mongo/bulk-audit.ts:80-98 | Of the sales a batch has an email under, the one wins whose first payload in the batch comes last |
| CrossSale.SecondSaleGetsNoLine | server/src/adapters/mongo/bulk-audit.ts:96-98 | When one email is under two sales in a batch and neither order had its line, at most one of the two gets it |
| CrossSale.LoserIsBilledToTheWinner | server/src/adapters/mongo/bulk-audit.ts:103-129 | The losing payload adds nothing to its own order and its product is on a line of the other sale's order |
| CrossSale.RecordsThisStoreIff | server/src/adapters/mongo/bulk-audit.ts:80-134 | Store by store, a full write records exactly its batch if and only if each payload wins or had its line, and what the winner is billed was asked for by the winner at that price |
| CrossSale.RecordsEveryStoreIffOneSalePerEmail | server/src/adapters/mongo/bulk-audit.ts:80-134 | The batches recorded correctly on every sound store are exactly those without an email under two sales |
| AuditDb.AuditDb.UpsertUserDoc | server/src/adapters/mongo/bulk-audit.ts:29-38 | The in-place upsert is the atomic store step and leaves orders and lines alone |
| AuditDb.AuditDb.UpsertOrderDoc | server/src/adapters/mongo/bulk-audit.ts:52-73 | The same for the order upsert |
| AuditDb.AuditDb.UpsertLineDoc | server/src/adapters/mongo/bulk-audit.ts:113-127 | The same for the line upsert |
| AuditDb.AuditDb.BulkRecordOrders | server/src/adapters/mongo/bulk-audit.ts:23-135 | The five phases in place equal the bulk write on values and record every payload of a batch with one sale per email |
| AuditDb.AuditDb.InterruptedBulkWrite | server/src/adapters/mongo/bulk-audit.ts:28-134 | The same call when it dies at a cut leaves exactly the upserts of that cut applied |
| AuditDb.AuditDb.WriteUsers | server/src/adapters/mongo/bulk-audit.ts:28-38 | The loop of phase 1 applies one upsert per payload |
| AuditDb.AuditDb.FindUserIds | server/src/adapters/mongo/bulk-audit.ts:40-47 | Phase 2 resolves exactly the users of the batch |
| AuditDb.AuditDb.WriteOrders | server/src/adapters/mongo/bulk-audit.ts:49-73 | The loop of phase 3 applies one upsert per payload |
| AuditDb.AuditDb.GroupBySale | server/src/adapters/mongo/bulk-audit.ts:80-88 | The grouping loop yields the distinct sales in order of first appearance and exactly the emails of each |
| AuditDb.AuditDb.FindOrderIds | server/src/adapters/mongo/bulk-audit.ts:89-98 | One query a sale, flattened by email, later sales overwriting, is the email map of the value model |
| AuditDb.AuditDb.WriteLines | server/src/adapters/mongo/bulk-audit.ts:100-134 | The loop of phase 5 files each line under the order its email resolved to |
| AuditDb.AuditDb.RecordOrderNow | server/src/adapters/mongo/audit.ts:63-85 | The one-order recorder in place equals its value model, early return included |
| Recorder.RecordOrderStep | server/src/adapters/mongo/audit.ts:63-85 | Recording an order keeps the store sound; a duplicate changes neither orders nor lines |
| Recorder.RecordAllGrows | server/src/adapters/mongo/audit.ts:63-85 | A fold of the recorder records every payload whose order had its line or did not exist, and touches no older line |
| Recorder.BulkRefinesRecorder | server/src/adapters/mongo/bulk-audit.ts:28-134 | One bulk write and a fold of the recorder leave the same contents if and only if no order of the batch had lost its line before |
| Recorder.OnlyBulkHealsAnOrphan | server/src/adapters/mongo/audit.ts:68-76 | An order without its line gets it back from the bulk write and never from the recorder |
| OrderWorker.IterateAllKeepsMessages | server/src/adapters/redis/order-queue.ts:156-184 | No iteration loses, doubles or reorders an entry among acked, pending and unread |
| OrderWorker.IterationIsExact | server/src/worker/order-worker.ts:92-113 | By outcome: a good iteration acks the oldest pending batch or else the oldest unread one, a failed write leaves its batch pending, a failed ack counts if it ran, a failed read at most claims entries |
| OrderWorker.GoodWriteDeliversAll | server/src/worker/order-worker.ts:72-82 | A write that succeeded carried its whole batch through, whether or not its ack did |
| OrderWorker.ConsumerGroup.ReadPending | server/src/adapters/redis/order-queue.ts:156-166 | Returns the oldest own pending entries, at most count, and claims nothing |
| OrderWorker.ConsumerGroup.ReadBatch | server/src/adapters/redis/order-queue.ts:168-177 | Moves at most count undelivered entries, oldest first, into the pending list |
| OrderWorker.ConsumerGroup.Ack | server/src/adapters/redis/order-queue.ts:179-184 | Removes exactly the given entries from the pending list |
| OrderWorker.OrderWorker.WriteBatch | server/src/worker/order-worker.ts:69-86 | Acks only after the write was confirmed and then starts the backoff over at 500 ms; on failure keeps the entries pending and sleeps |
| OrderWorker.OrderWorker.SleepOff | server/src/worker/order-worker.ts:83-84 | Sleeps the current backoff, then doubles it up to 30 s |
| OrderWorker.OrderWorker.IterateOnce | server/src/worker/order-worker.ts:92-113 | One turn of the loop on database and group equals the value model, pending entries before new ones |
| OrderWorker.OrderWorker.Run | server/src/worker/order-worker.ts:88-116 | The loop over any outcomes equals the fold of that model on the loop state and on the database |
| OrderWorker.LoopAudited | server/src/worker/order-worker.ts:69-113 | After any outcomes every acked entry is recorded and the store has nothing but what was queued, if no batch-sized window of the queue has an email under two sales |
| OrderWorker.DrainedLoopRecordsAll | server/src/worker/order-worker.ts:69-113 | Whatever read, write and ack failures came before, a drained loop leaves exactly the records of everything queued, under the same condition on single batches |
| OrderWorker.DrainedLoopIsOneBulkWrite | server/src/worker/order-worker.ts:69-113 | That equals what any other history carrying the same payloads through leaves |
| OrderWorker.BackoffClosedForm | server/src/worker/order-worker.ts:83-84 | The doubled and capped backoff is min(500 * 2^k, 30000) |
| OrderWorker.FailureStreakSleeps | server/src/worker/order-worker.ts:65-111 | Whatever went on before: after a batch that was persisted and acked, the k-th failure until the next such batch sleeps min(500 * 2^k, 30000) ms, k from 0; every failed read, and every failed write or ack of a batch, sleeps once, and nothing else does |
| OrderWorker.StreakFromScratch | server/src/worker/order-worker.ts:65-111 | The same of a loop that has just been started |
| OrderWorker.DrainsExactly | server/src/worker/order-worker.ts:92-106 | p pending and n unread entries are gone after exactly ceil(p/b) + ceil(n/b) good iterations and not one earlier, pending first, whatever order the server applies upserts in |
| OrderWorker.RecoversFromAnyOutage | server/src/worker/order-worker.ts:88-113 | Any outage followed by that many good iterations leaves exactly the records of everything queued |
| Pipeline.StepInv | server/src/worker/order-worker.ts:69-113 | Every step of API, workers, database and crashes, and every upsert or XACK that still runs after its worker gave up or died, keeps the seven-part invariant |
| Pipeline.EachEntryInOnePlace | server/src/adapters/redis/order-queue.ts:156-184 | In every reachable state an entry is exactly one of undelivered, pending with one consumer, acked |
| Pipeline.PendingWaitsForItsConsumer | server/src/adapters/redis/order-queue.ts:156-166 | Without a worker under its own id, or an XACK such a worker had sent, a consumer's pending entries stay as they are, whatever everybody else does |
| Pipeline.FaultsCost | server/src/worker/order-worker.ts:79-86 | A lost reply, a lost XADD and a crashed API process cost exactly their orders; a worker that gives up keeps its batch pending and leaves what was not confirmed behind |
| Pipeline.StrayTakesEffect | server/src/worker/order-worker.ts:69-86 | An upsert or XACK that lands after its worker gave up takes full effect |
| Pipeline.AckedIsRecordedOnce | server/src/worker/order-worker.ts:71-73 | An acked entry has its order, owned by its user, and one line in all: quantity 1, carried price |
| Pipeline.OrdersAreBuyers | server/src/adapters/mongo/bulk-audit.ts:49-73 | Every audited order of the sale belongs to an email the order script accepted |
| Pipeline.NoOversellInMongo | server/src/adapters/mongo/bulk-audit.ts:49-73 | The audit never holds more orders than the sale had units |
| Pipeline.DrainedAuditIsExact | server/src/worker/order-worker.ts:69-113 | Once drained, the audit is every buyer but those lost between verdict and queue, and the undercount is exactly their number |
| PipelineDrain.AckSettlesTheBatch | server/src/adapters/redis/order-queue.ts:179-184 | After XACK exactly the batch is acked and off the pending list, each of its entries recorded once, the worker is free, and no other consumer is affected |
| PipelineDrain.CanAlwaysDrain | server/src/worker/order-worker.ts:88-113 | From every reachable state, as long as one consumer exists, a run that decides and loses nothing more drains the pipeline, and the audit then is every buyer but those lost before |
| OrderScript.RedisDb.RunOrderScript | server/src/adapters/redis/order.lua:24-37 | The script in place is the decision on its sale and leaves every other key, so every other sale, as it was; text that is no number is a missing stock |
| OrderScript.VerdictIsExact | server/src/adapters/redis/order.lua:24-37 | Each verdict by the state it was made in, and the count it carries: the stock after the decision |
| OrderScript.DecideConserves | server/src/adapters/redis/order.lua:24-37 | Units sold plus units left never change; stock does not go negative; OK means a new buyer and nothing else does |
| Attempts.ReadableIff | server/src/adapters/redis/orders.ts:79-101 | Of the script's own replies a verdict comes out exactly while the stock key holds a count that is not negative, whatever the verdict, an earlier buyer's included |
| Attempts.StepInv | server/src/adapters/redis/orders.ts:130-162 | Every command, reply, garbled reply, timeout, script flush and reload keeps the invariant |
| Attempts.DecisionsConserve | server/src/adapters/redis/orders.ts:130-162 | Over any interleaving buyers plus stock is constant, stock is not negative, and the k-th OK leaves k units fewer |
| Attempts.EachCallRunsAtMostOnce | server/src/adapters/redis/orders.ts:130-161 | A call runs the script at most once, fallback and timeout included, and an OK it received is one the server decided |
| Attempts.CallsAreLinearizable | server/src/adapters/redis/orders.ts:128-162 | However calls interleave, drop and time out, the keys went through one decision after another, at most one a call and for its own email, and every verdict an API process holds is the one made for its call |
| Attempts.ArrivedDecisionIsTheResult | server/src/services/order.ts:91-129 | An ungarbled reply that finds its call waiting is that call's own decision and becomes its result, verdict and count, and exactly its events are published: order.accepted for an OK, sale.sold_out if it took the last unit |
| Attempts.UndisturbedCallIsAnswered | server/src/adapters/redis/orders.ts:128-162 | A call nothing gets in the way of is answered by one decision on the keys as they are, flushed script cache or not |
| Attempts.FallbackOnlyAfterFlush | server/src/adapters/redis/orders.ts:128-159 | Without a flush no call is refused its digest and none falls back |
| Attempts.FaultsCost | server/src/adapters/redis/orders.ts:130-161 | A dropped connection loses the command or its answer for good, a garbled answer and a timeout are a 503 that publishes nothing, a flush makes the next digest unknown; none touches the keys |
| Attempts.SoldOutIffDrainingReplyArrived | server/src/services/order.ts:112-122 | sale.sold_out is published at most once, and exactly when the reply of the call that took the last unit came through ungarbled while the call was waiting |
| Attempts.NoSoldOutBeforeDrained | server/src/services/order.ts:118-122 | Nothing says sold out while a unit is left |
| Attempts.TimedOutDrainPublishesNothing | server/src/adapters/redis/orders.ts:64-77 | A reachable state where stock is gone, the buyer was answered 503 and nothing was published |
| SaleStatus.StatusIsExact | server/src/services/sale-status.ts:48-71 | Fails exactly when the stock is unreadable, reports the stock as it is, and is upcoming, ended, active or sold out exactly where the clock stands in the window and the stock says so |
| SaleStatus.StatusNeverGoesBack | server/src/services/sale-status.ts:54-62 | As the clock advances a sale never goes back to upcoming or from ended, and from sold out to active only if units came back |
| OrderService.OrderStore.LoadScript | server/src/adapters/redis/orders.ts:109-116 | The digest is kept only if the answer came back |
| OrderService.OrderStore.Attempt | server/src/adapters/redis/orders.ts:130-162 | Whatever the trips did, the script ran at most once on this sale only, and a verdict is that run's verdict |
| OrderService.Service.Attempt | server/src/services/order.ts:81-129 | An answer other than 503 is the answer of one atomic decision under the window rule, and exactly an accepted order has effects: audit, charge, order.accepted, and sale.sold_out on the last unit |
| OrderService.StatusAndVerdictAgreeIff | server/src/services/sale-status.ts:48-71 | Status and verdict tell a newcomer the same, count included, and an inactive sale is upcoming or ended by the clock, if and only if the count is not negative inside the window and readable outside it |
| OrderService.HolderWinsIff | server/src/services/order.ts:83-88 | A holder is answered already, inside the window with the stock, if and only if outside the window or the count is readable and not negative; nothing ever changes |
| OrderService.EffectsAreTheDecisions | server/src/services/order.ts:92-125 | Exactly an accepted order is audited, charged and announced, under its own email and sale and once; exactly the one that takes the last unit announces the end |
| OrderService.RequestWritesItsDecision | server/src/services/order.ts:77-90 | A request that ran leaves in the keys what its decision left, and one that did not, nothing |
| OrderService.AcceptedIsAlreadyForever | server/src/services/order.ts:81-129 | Once created, always already: at any clock, after anyone's requests, lost replies and warm restarts, dead ones included |
| OrderService.ColdRestartKeepsHolderIff | server/src/bootstrap.ts:203-220 | After a cold rebuild an email is answered already, at any clock, if and only if MongoDB confirmed it at that boot |
| OrderService.ColdRestartMayForget | server/src/bootstrap.ts:203-220 | A run in which an accepted order unknown to MongoDB is issued again |
| Boot.MigrateResult | server/src/adapters/redis/migrate.ts:55-97 | The migration's writes come to the case table: namespaced state wins, else the flat keys are taken over |
| Boot.BootResult | server/src/bootstrap.ts:194-220 | A completed boot from any combination of the four keys leaves no flat key and namespaced state, else flat stock, else MongoDB's truth |
| Boot.BootIsIdempotent | server/src/bootstrap.ts:200-220 | After a completed boot later boots write nothing, whatever MongoDB says by then |
| Boot.UpgradeKeepsFlatMembersIff | server/src/adapters/redis/migrate.ts:88-95 | A flat upgrade hands over exactly the flat buyers if and only if there was a flat set or no namespaced leftover |
| Boot.ColdRebuildSurvivesCrashes | server/src/adapters/redis/reconcile.ts:48-55 | Whatever buyer sets are left over, namespaced or flat, after any number of boots dead after any prefix of RENAME, DEL, SADD, SET the first completed one leaves MongoDB's emails, stock max(0, quantity - n) and their sum max(quantity, n) |
| Boot.DyingMigration | server/src/adapters/redis/migrate.ts:68-95 | A migration that dies leaves the namespaced set untouched and a state the next boot completes, except between the two renames |
| Boot.CrashedMigrationIff | server/src/adapters/redis/migrate.ts:90-95 | One dead boot and a completed one leave what one completed boot leaves, if and only if it did not die between the renames or the sets were equal |
| Boot.CrashedUpgradeCapacity | server/src/adapters/redis/migrate.ts:88-95 | However many boots die, an upgrade ends with the right stock and the migrated or the old namespaced set, and buyers plus stock exceed those of an undisturbed boot by at most what the leftover set is larger |
| Boot.LosingMembersAddsCapacityIff | server/src/adapters/redis/migrate.ts:88-95 | Dying between the renames adds capacity if and only if the leftover namespaced set is larger than the flat one |
| Boot.OverlappingBootsAgree | server/src/adapters/redis/reconcile.ts:48-55 | Two processes rebuilding from the same MongoDB, their writes interleaved in any way, leave what one rebuild leaves once both are through |
| Boot.LateRebuildKeepsBuyerIff | server/src/bootstrap.ts:200-220 | When one process already serves and a second rebuilds on its earlier test of the sentinel, an accepted buyer is kept if and only if MongoDB had confirmed it to the second; a second one that dies after DEL leaves a warm sale without buyers |
| Boot.BootProcess.Send | server/src/adapters/redis/migrate.ts:73-95 | A write happens while the process lives and nothing happens after it died |
| Boot.BootProcess.Migrate | server/src/adapters/redis/migrate.ts:55-97 | Sends exactly the migration's writes, or the prefix the process lived for |
| Boot.BootProcess.Rebuild | server/src/adapters/redis/reconcile.ts:48-55 | Sends DEL, SADD, SET in this order, the sentinel last, or a prefix |
| Boot.BootProcess.Boot | server/src/bootstrap.ts:194-220 | The boot as run equals the value model at every point it may die |
| SaleEvents.Broadcaster.constructor | server/src/services/sale-events.ts:96-114 | A new broadcaster has no sink, no timer and an empty chain, and stands at the start of a run |
| SaleEvents.Broadcaster.Turn | server/src/services/sale-events.ts:96-274 | Any handler leaves the object in a state some run of the machine reaches, so that every run theorem holds of it |
| SaleEvents.Broadcaster.WriteToAll | server/src/services/sale-events.ts:130-137 | Every sink gets the chunk once, those that throw are dropped, and the heartbeat stops with the last |
| SaleEvents.Broadcaster.EndAll | server/src/services/sale-events.ts:196-202 | The loop ends every current sink and no other connection |
| SaleEvents.Broadcaster.CloseAll | server/src/services/sale-events.ts:193-204 | Every stream is ended, no sink and no timer is left |
| SaleEvents.Broadcaster.Emit | server/src/services/sale-events.ts:209-227 | An emit stamps its time and appends one read to the chain |
| SaleEvents.Broadcaster.OnDomainEvent | server/src/services/sale-events.ts:247-270 | The gate in place equals the gate on values |
| SaleEvents.Broadcaster.Register | server/src/services/sale-events.ts:234-237 | One more sink, and a heartbeat if there was none |
| SaleEvents.Broadcaster.Unregister | server/src/services/sale-events.ts:237-244 | Drops the sink once; later calls do nothing |
| SaleEvents.Broadcaster.OnPendingTimer | server/src/services/sale-events.ts:265-268 | The trailing emit |
| SaleEvents.Broadcaster.OnHeartbeatTimer | server/src/services/sale-events.ts:175-182 | Heartbeat to all sinks, then a probe unless disarmed or nobody listens |
| SaleEvents.Broadcaster.OnProbeSettled | server/src/services/sale-events.ts:151-169 | The result is used only if the state did not change during the read |
| SaleEvents.Broadcaster.StartNext | server/src/services/sale-events.ts:211-217 | The next emit looks up the active sale, or does nothing when nobody listens |
| SaleEvents.Broadcaster.OnActiveSale | server/src/services/sale-events.ts:217-226 | With the active sale found its status read begins; a failed lookup closes all streams |
| SaleEvents.Broadcaster.OnStatusRead | server/src/services/sale-events.ts:218-226 | One identical frame to all current sinks, or all streams closed |
| SaleEvents.StepInv | server/src/services/sale-events.ts:96-274 | Every turn of the event loop keeps the fifteen-part invariant |
| SaleEvents.GateIsExact | server/src/services/sale-events.ts:247-270 | Terminal events and the first event after a quiet interval are broadcast in their own turn; an ordinary event joins a pending emit or makes one pending for the last broadcast plus the interval |
| SaleEvents.TrailingEdge | server/src/services/sale-events.ts:265-268 | A pending emit that comes due is made |
| SaleEvents.EmitReachesEverySink | server/src/services/sale-events.ts:209-222 | The run of one emit, lookup, read and write, sends exactly its frame to every sink and to nobody else |
| SaleEvents.FailureClosesEveryStream | server/src/services/sale-events.ts:193-226 | A failed lookup or read, and stop, end every stream, write nothing and leave no timer |
| SaleEvents.ThrowingSinksAreDropped | server/src/services/sale-events.ts:130-137 | Of a write to all, exactly the sinks that throw are dropped and exactly the others get one chunk |
| SaleEvents.HeartbeatIsExact | server/src/services/sale-events.ts:175-184 | A heartbeat reaches every sink that does not throw, starts one probe while armed and listened to, and comes again 25 s later as long as there is a sink |
| SaleEvents.ProbeIsExact | server/src/services/sale-events.ts:155-168 | A probe that reads sold out is broadcast, one that reads ended ends the probing, any other and a failed one leave the net armed, and a late one is ignored |
| SaleEvents.RegistrationIsExact | server/src/services/sale-events.ts:234-244 | A registration adds one sink that has got nothing and starts the heartbeat for the first; an unregistration takes that sink away, once |
| SaleEvents.CoalescingBound | server/src/services/sale-events.ts:247-269 | An ordinary emit comes at least coalesceMs after every earlier emit but the safety net's |
| SaleEvents.SafetyNetFiresOnce | server/src/services/sale-events.ts:147-169 | After a terminal event or a safety-net emit there is never another safety-net emit, overlapping probes included |
| SaleEvents.TimersAreThoseHeld | server/src/services/sale-events.ts:105-128 | At most one pending emit is ever armed, and one heartbeat exactly while there is a sink |
| SaleEvents.TerminalSupersedes | server/src/services/sale-events.ts:186-204 | A terminal event leaves no emit pending and one more in the chain; closeAll leaves no timer |
| SaleEvents.NoEventLost | server/src/services/sale-events.ts:247-269 | With timers that are not late, an event at t is answered by an emit in [t, t + coalesceMs] unless all streams were closed after it |
| SaleEvents.LastFrameIsFresh | server/src/services/sale-events.ts:186-270 | At rest, each surviving sink that was there for the last event has a last status frame whose read began after that event |
| SaleEvents.CanComeToRest | server/src/services/sale-events.ts:209-270 | From every reachable state a run comes to rest without losing a sink |
| SaleEvents.SinksSeeTheSameFrames | server/src/services/sale-events.ts:209-222 | Two sinks got the same status frames since the later of them registered, in the order their reads began |
| SaleEvents.LastEmitIsDelivered | server/src/services/sale-events.ts:209-227 | With the chain at rest, each surviving sink that was there for the last emit, the safety net's included, has a last status frame whose read began after that emit |
| SaleEvents.SafetyNetHeals | server/src/services/sale-events.ts:139-182 | End to end: with nothing terminal seen, one probe that reads sold out before any reads ended is enough, whatever other probes fail, lag or read; once the chain is at rest each surviving sink has a later status frame, though nobody published the event |
| SaleEvents.HeartbeatIsSteady | server/src/services/sale-events.ts:171-184 | With punctual timers a surviving sink is written to within any 25 s, and a probe goes out within them unless a terminal event was seen |
| SaleEvents.HealedWithinOneHeartbeat | server/src/services/sale-events.ts:139-182 | With punctual timers and every probe reading sold out, each surviving sink has that frame once more than one heartbeat interval has passed and the reads are in |
| SaleEvents.DroppedStaysDropped | server/src/services/sale-events.ts:123-137 | A dropped connection is never written to again |
| SaleEvents.TerminalEmitIsTheLastIff | server/src/services/sale-events.ts:248-268 | After a terminal event with nothing pending, over any run that closes no streams, another broadcast is made or pending if and only if another event, terminal or not, is heard |
| SaleEvents.TerminalFrameIsNotAlwaysTheLast | server/src/services/sale-events.ts:256-268 | For any coalescing interval up to the heartbeat's, a reachable punctual run in which a listening client gets an ordinary broadcast after the terminal one |
| SseRoute.EventsHandler.Write | server/src/routes/sale.ts:51-57 | A chunk goes to the response when ready and to the buffer before |
| SseRoute.EventsHandler.OnSnapshotFailed | server/src/routes/sale.ts:73-76 | Unregisters and answers 503 if the response is still unsent |
| SseRoute.EventsHandler.Flush | server/src/routes/sale.ts:95-98 | The flush loop sends every buffered chunk once, in order |
| SseRoute.EventsHandler.OnSnapshot | server/src/routes/sale.ts:78-98 | Snapshot first, then the buffer in order; on a response already gone, only unregisters |
| SseRoute.BodyIsSnapshotThenEverything | server/src/routes/sale.ts:43-98 | A body is empty or the snapshot followed by every chunk written to the sink since it registered, none lost, doubled or reordered |
| SseRoute.HandlerIsExact | server/src/routes/sale.ts:43-98 | What an arriving or failed snapshot, a chunk, an end, a drop and a close each do to the response and to the sink |
| SseRoute.EveryExitUnregisters | server/src/routes/sale.ts:62-83 | Failed snapshot, close during the await, close before the listener, closeAll: none leaves a registered sink |
| SseRoute.FailedSnapshotIsCleanly503 | server/src/routes/sale.ts:67-76 | A failed snapshot is a 503 with nothing written |
| SseDelivery.ClientSeesEveryBroadcast | server/src/routes/sale.ts:62-98 | Broadcaster and handler together, over any run from the registration: the body is the snapshot, read in the turn of the registration, and then every chunk the broadcaster sent to all since, heartbeats included, in order; all of them while the client is a sink, an initial part once it was dropped |
| SseDelivery.HandlerTurnsAreExact | server/src/routes/sale.ts:62-98 | A snapshot is served in the turn it arrives unless the response has gone; whenever the handler leaves or the connection closes the broadcaster loses the sink |
| SseDelivery.NoSinkLeaks | server/src/routes/sale.ts:62-83 | Whichever way the handler ends without serving, or the connection ends, the broadcaster no longer holds its sink |
| SseDelivery.BodyIsInReadOrderIff | server/src/routes/sale.ts:62-98 | A body is in read order, snapshot included, if and only if the broadcaster had no status read in flight when the client registered, or sent it no frame |
| SseDelivery.BufferedFrameMayBeOlder | server/src/routes/sale.ts:62-98 | A run of both from a new broadcaster in which a client registers during a broadcast's read and is sent its frame after a snapshot read later |
| WindowTimers.Timers.constructor | server/src/services/sale-events.ts:332-333 | Arms a timer for the start exactly if startMs is ahead, and for the end exactly if endMs is |
| WindowTimers.Timers.OnTimer | server/src/services/sale-events.ts:311-323 | A wake-up publishes its event exactly if the start, or for sale.ended the end, has been reached and nothing was cancelled |
| WindowTimers.Timers.Cancel | server/src/services/sale-events.ts:336-342 | No timer is left |
| WindowTimers.OnceAndNeverEarly | server/src/services/sale-events.ts:303-333 | However timers drift, sale.started is published at most once and not before startMs, sale.ended at most once and not before endMs, neither if that had passed at arming |
| WindowTimers.OneTimerPerBoundary | server/src/services/sale-events.ts:300-330 | A future boundary has exactly one timer until it is published, with a delay of at most 2^31 - 1 |
| WindowTimers.WakeUpAnnouncesIffDue | server/src/services/sale-events.ts:310-321 | A wake-up at or after its boundary publishes it, however late, and an earlier one publishes nothing and is armed again |
| WindowTimers.CanStillBeAnnounced | server/src/services/sale-events.ts:308-323 | In every reachable state an armed boundary is published by the clock reaching it and its timer waking up |
| WindowTimers.SilentAfterCancel | server/src/services/sale-events.ts:313-315 | Nothing is published after cancel |
| WindowTimers.ExactTimersTakeCeilWakeUps | server/src/services/sale-events.ts:308-333 | With exact timers sale.started is published at startMs and sale.ended at endMs, d ms away, after exactly ceil(d / (2^31 - 1)) wake-ups |
| WindowTimers.ExactTimersPublish | server/src/services/sale-events.ts:303-330 | With exact timers a boundary that has passed has been published |
| WindowTimers.StartComesFirst | server/src/services/sale-events.ts:332-333 | With exact timers and a non-empty window sale.started is published before sale.ended |
| SaleStatusHook.Hook.constructor | client/src/hooks/useSaleStatus.ts:360-373 | Cold load: watchdog, stream, poll and deadline are started; the object stands at the start of a run |
| SaleStatusHook.Hook.Turn | client/src/hooks/useSaleStatus.ts:174-383 | Any handler leaves the object in a state some run of the machine reaches, so that every run theorem holds of it |
| SaleStatusHook.Hook.OnOpen | client/src/hooks/useSaleStatus.ts:183-203 | Open in place equals the model: both retry timers stop, and a recovery starts one re-sync |
| SaleStatusHook.Hook.OnError | client/src/hooks/useSaleStatus.ts:227-248 | An error drops the liveness claim at once, keeps a source that is retrying and starts both fallbacks |
| SaleStatusHook.Hook.OnPollSettled | client/src/hooks/useSaleStatus.ts:259-293 | A poll paints only while the stream is down; only carrying polls claim degraded or offline; a 404 is terminal |
| SaleStatusHook.Hook.OnTimer | client/src/hooks/useSaleStatus.ts:305-373 | Poll, reconnect, deadline and watchdog callbacks equal the model; a reconnect callback of a page that is not live leaves a handshake under way, with one more stream unless there was one |
| SaleStatusHook.Hook.MarkNotFound | client/src/hooks/useSaleStatus.ts:161-172 | Stops polling, reconnecting and the stream, once |
| SaleStatusHook.Hook.Unmount | client/src/hooks/useSaleStatus.ts:375-383 | Clears every timer and the stream |
| SaleStatusHook.StepInv | client/src/hooks/useSaleStatus.ts:174-383 | Every stream event, settling fetch, timer, re-sync and unmount keeps the seven-part invariant |
| SaleStatusHook.AlwaysSomethingNext | client/src/hooks/useSaleStatus.ts:174-373 | Degraded and offline keep one poll and one reconnect timer, live keeps neither and an open stream, connecting keeps both or its deadline; no timer is armed twice |
| SaleStatusHook.RetriesBackOff | client/src/hooks/useSaleStatus.ts:310-343 | An armed reconnect timer belongs to the attempts since the last open and waits at least half and less than all of their capped delay; a fired one is followed by the next retry, and an open starts over |
| SaleStatusHook.RetryTimersRetry | client/src/hooks/useSaleStatus.ts:305-343 | While not live, a fired reconnect timer opens a stream unless a handshake is under way, and a fired poll timer puts one more carrying poll in flight |
| SaleStatusHook.JitterIsDrawn | client/src/hooks/useSaleStatus.ts:310-343 | Each retry waits half of its capped delay and the share of the other half the random generator gave |
| SaleStatusHook.ReturnsToLive | client/src/hooks/useSaleStatus.ts:326-343 | From every page with a retry armed, the clock to its due time, at most 30 s away, the timer and a good handshake make a run that ends live, with a re-sync after an outage |
| SaleStatusHook.LosingTheStreamIsCarried | client/src/hooks/useSaleStatus.ts:227-248 | After an error, after more than 40 s of silence and at the deadline the page says so at once, keeps its body, has both retry timers and a poll in flight, and keeps a source only if that is retrying |
| SaleStatusHook.HeardStreamIsKept | client/src/hooks/useSaleStatus.ts:352 | A live stream that was heard from within 40 s is kept by every timer |
| SaleStatusHook.AnswersArePainted | client/src/hooks/useSaleStatus.ts:259-293 | On a page that is not live every answer is painted; a carrying poll turns it degraded or offline, a failed cold poll arms both retry timers, a poll's 404 is final |
| SaleStatusHook.LivePagePaintsFrames | client/src/hooks/useSaleStatus.ts:207-225 | A live page paints every well-formed frame, ignores answers of polls and refetches, and treats a poll's 404 as final |
| SaleStatusHook.ColdLoad | client/src/hooks/useSaleStatus.ts:345-373 | A page begins with one stream connecting, a cold poll in flight, the watchdog and the deadline armed and no retry timer |
| SaleStatusHook.TimersAreExact | client/src/hooks/useSaleStatus.ts:296-373 | Each timer fires no earlier than it may; a poll timer goes on, the watchdog comes round 10 s later, a reconnect timer and the deadline fire once |
| SaleStatusHook.FetchesSettleOnce | client/src/hooks/useSaleStatus.ts:255-293 | An answer ends its own fetch and no other |
| SaleStatusHook.ActivityIsHearing | client/src/hooks/useSaleStatus.ts:207-225 | On a live page heartbeats and frames, malformed or not, count as activity, and nothing else it gets |
| SaleStatusHook.NotFoundIsAbsorbing | client/src/hooks/useSaleStatus.ts:158-172 | Once not found: no stream, no poll, no reconnect timer, and no stream or fetch is ever started again |
| SaleStatusHook.NotFoundKeepsItsWatch | client/src/hooks/useSaleStatus.ts:158-172 | Of a not-found page no timer is left if and only if it is unmounted; what a mounted one keeps is the watchdog or the deadline |
| SaleStatusHook.NotFoundPageIsFrozenIff | client/src/hooks/useSaleStatus.ts:259-280 | A mounted not-found page never changes again, in any run, if and only if every fetch in flight finds the channel live and is not a recovery's re-sync |
| SaleStatusHook.NotFoundPageMayChange | client/src/hooks/useSaleStatus.ts:259-280 | A reachable not-found page with timers armed that an answer in flight repaints |
| SaleStatusHook.LiveBodyHasTwoWriters | client/src/hooks/useSaleStatus.ts:85-97 | While live, only a stream frame or the re-sync of a recovery changes the body |
| SaleStatusHook.ResyncMeansRecovery | client/src/hooks/useSaleStatus.ts:192-202 | Such a re-sync is started only by an open after degraded or offline |
| SaleStatusHook.ResyncMayRewindALivePage | client/src/hooks/useSaleStatus.ts:198-202 | A reachable live page on which the re-sync paints an older reading over a newer frame |
| SaleStatusHook.SoleWriterIffNoResync | client/src/hooks/useSaleStatus.ts:85-112 | No answer in flight can repaint a live page if and only if none of them is a re-sync of a recovery |
| SaleStatusHook.LiveMeansHeardRecently | client/src/hooks/useSaleStatus.ts:345-358 | With a punctual watchdog a live page heard from its stream within 50 s |
| SaleStatusHook.UnmountedIsInert | client/src/hooks/useSaleStatus.ts:375-383 | After unmount there is no timer and no stream, and nothing repaints the page |
| SaleStatusHook.ReconnectDelayBounds | client/src/hooks/useSaleStatus.ts:310-316 | The wait is at least half the capped delay and under it, between 0.5 s and 30 s, and the cap doubles until the fifth retry |
| Judge.ExactSellThrough | server/test/helpers/fake-redis.ts:139-160 | However the run crashed, S units that d distinct emails attempted end with min(S, d) buyers, all among those emails, and the rest in stock |
| Judge.DrainedRunPassesIff | stress/verify.ts:82-154 | A drained run passes if and only if the harness expected the seeded stock and as many buyers as the distinct emails make, and the orders lost before the queue are within the given tolerance or else at most one, or one percent rounded up |
| Judge.LosslessRunPasses | stress/verify.ts:82-154 | A drained run that lost nothing passes under any tolerance |
| Judge.RetriesFailTheFirstCheckIff | stress/verify.ts:87-99 | With retries counted as attempts, a correct run passes the first check if and only if there were none or the stock was used up |
| Judge.PassMeansSellThrough | stress/verify.ts:255-263 | With the four readings taken in four successive states of any run: a pass is exactly stock as expected, buyers sold through to min(stock, attempts), no buyer between the two Redis readings, no order between the two MongoDB readings, and an audit short of the buyers by no more than the tolerance; what the last state's audit lacks, the lost orders included, is then within it too |
| Judge.DefaultToleranceIsExact | stress/verify.ts:88 | The default tolerance, a product with the double 0.01 rounded to a double and then up, is the exact one percent rounded up, for every target up to 2^50 |
| Judge.PassedRulesOutOverselling | stress/verify.ts:82-154 | A pass bounds buyers and audited orders by the stock, whatever was expected |
| Judge.ChecksAreExact | stress/verify.ts:96-148 | Each of the five named checks passes exactly under its own condition |
| Judge.PollUntilStable | stress/verify.ts:179-195 | Returns the first sample after the floor that repeats a non-zero count, and gives up only if there is none |
| Judge.SettledNeverOverstates | stress/verify.ts:169-178 | On a growing audit the settled count is at most the final one, and equals it if and only if nothing was written after |
| SaleResolver.SelectsTheBest | server/src/middleware/sale-resolver.ts:76-91 | Find, filter and stable sort choose what a one-pass scan for the earliest best chooses |
| SaleResolver.ChoiceInWords | server/src/middleware/sale-resolver.ts:64-91 | An active sale if there is one, otherwise the upcoming one that starts soonest, otherwise the one that ended last |
| SaleResolver.ChoiceIsBest | server/src/middleware/sale-resolver.ts:76-91 | Null exactly for the empty list; otherwise nothing beats the choice and everything before it is worse |
| SaleResolver.BootRefusesOverlapIff | server/src/bootstrap.ts:149-166 | Boot refuses for overlap exactly when two listed sales are active at once, finds no sale exactly in an empty list, and otherwise takes the best choice |
| SaleResolver.Resolver.ResolveBySlug | server/src/middleware/sale-resolver.ts:113-118 | A hit is what the slug cache holds and has not expired, anything else queries |
| SaleResolver.Resolver.ResolveActive | server/src/middleware/sale-resolver.ts:128-132 | The same for the active sale |
| SaleResolver.Resolver.OnAnswer | server/src/middleware/sale-resolver.ts:119-125 | An answer is cached for the TTL from the beginning of its lookup, a miss removes the entry |
| SaleResolver.HitsAreTimely | server/src/middleware/sale-resolver.ts:113-140 | However lookups interleave, a cache serves what the latest answered lookup of the key found, and only if that lookup began less than the TTL before |
| SaleResolver.HitIffFresh | server/src/middleware/sale-resolver.ts:113-140 | A request is served from the cache if and only if the latest answer of its key found a sale and that lookup began less than the TTL ago; otherwise it queries |
| SaleResolver.AnswersEndTheirLookup | server/src/middleware/sale-resolver.ts:113-140 | An answer ends its own lookup and no other, is remembered with that lookup's key and clock, and touches no other key's cache |
| SaleResolver.MissesAreNotServed | server/src/middleware/sale-resolver.ts:120-124 | After a miss a key is not served from the cache before a later lookup of it found the sale that is served |
| SaleResolver.BootChoiceIsServed | server/src/bootstrap.ts:180-191 | As wired at boot, every hit serves the sale chosen at boot; among disjoint windows it is the right choice at that time if and only if its window has not ended or no listed one ends later, and in any list an active or upcoming sale beats it once it has ended |
| SaleResolver.EndedSaleIsStillServed | server/src/bootstrap.ts:180-191 | A reachable hit that serves the first of two sales as active after it ended and while the second is active |

## Left out

- Pipeline.StepInv: a worker may be handed any non-empty part of its own pending list; the exact oldest-first batches are in OrderWorker.
- OrderWorker.DrainsExactly: no entry is malformed; a pending list that begins with a full batch of malformed entries would stall the loop.
- OrderScript.RedisDb.RunOrderScript: a stock value is an integer or no number; one that is a number but no integer ("5.5"), on which DECR fails after SADD has run, is not represented.
- Boot.BootProcess.Boot: the writes of a dead boot end with it; one that had timed out and reaches Redis later is covered only as far as `LateRebuildKeepsBuyerIff` and `OverlappingBootsAgree` say.
- SaleEvents.HeartbeatIsSteady: the heartbeat interval is the source's default of 25 s; an override is not represented.
- SaleStatusHook.RetryTimersRetry: the poll interval and the connect deadline may fire at any time; their lengths are not represented.
- SseRoute.EventsHandler.OnSnapshotFailed: what the error middleware does with a response already ended is not part of this model.
- Correlation id and enqueue time of a payload, which no write reads, and the JSON form of stream entries.
- Boot.OverlappingBootsAgree: both boots read the same emails and quantity and nothing is sold between their writes; other interleavings of two boots are not part of this model.
- BulkAudit.DeliverAllGrows: deliveries follow one another; upserts that land during a later delivery are in Pipeline, for one sale.
- Trimming of the stream beyond its length limit, several sales in one pipeline run, and a cold rebuild while accepted orders are still queued.
- MongoDB upserts that are not atomic on the index-free line collection when two workers write the same order at once.
- Email canonicalisation; emails are compared as given.
- Payment, logging, failure reports, HTTP headers and status codes beyond 503, configuration, seeding, the stress reset and its load generator.
- React rendering and a change of slug during one mount; the client's order form and wire parsing.
