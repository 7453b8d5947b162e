# A verified model of the flash-sale gateway

This project models the concurrent core of OpenWar in Dafny and proves what it guarantees over
whole runs. `dafny verify dfyconfig.toml` checks everything.

## What is modelled

**The purchase protocol** (`OrderModel`, the step system; `OrderInvariants`, `OrderSteps`,
`OrderUnits`, what every step keeps and moves; `OrderCalls`, `OrderJobs`, what a call does by
itself under any errors, an insert and a payment; `OrderTheorems`, `OrderSweep`, `OrderGuard`,
`OrderStale`, `OrderReconciler`, `OrderRestock`, `OrderPlaceRefund`, what holds over runs and
when; `OrderRuns`, runs on which a promise fails; `OrderCluster`, the services as code). Every
Redis command or Lua script, SQL statement and JetStream publish is one atomic step. Calls of
`Place`, deliveries to `handleOrder`, timeouts, reconciler passes and dead letters are sequential
programs; any number of them interleave. Each command has
an outcome: it took effect and replied (`Ok`), took effect with its reply lost (`Lost`), failed
without effect (`Failed`), or was never sent because a circuit breaker or the context refused it
(`Open`). Messages may be delivered any number of times. The state is the shard counters, the
sold-out latches, the reservation cells with expiry, the guards, the leader lock, the orders
table, the stored events and schedules, the program counters, and bookkeeping that no step reads.
`OrderCluster.Cluster` holds the same services as imperative code on the shared stores: before
each command any other process may act, and each method is proved to take exactly its process's
steps of the step system, so every theorem about runs holds for it (`Cluster.NeverOversells`).

**The shard router and the seeder** (`InventoryKeys`, `Inventory`, `ShardRouter`), run without
interruption: key formats, the sweep, seeding, and the refinement of one counter by the shards.

**The token bucket** (`TokenBucket`) over exact reals; **the waiting room**: one room
(`WaitingRoom`) with its queue ordered by score and then member, and all rooms in one Redis
(`WaitingRoomStore`), where queues, heartbeats and tokens of every event lie side by side under
their key strings (`WaitingRoomKeys`, `KeyText`); **the circuit breaker**
(`CircuitBreaker.dfy`, module `Resilience`) with a call split where the lock is released; and
**the idempotency record** (`Idempotency`) with any number of concurrent requests, lost replies,
failed record writes and expiry.

## What the code does, where the documentation says otherwise

Line numbers of README.md in this section are those of the repository's own README.

- README.md:579-584 asks for cancel and restock exactly once. At most once holds
  (`OrderTheorems.AtMostOneRefund`). Exactly once holds for a call exactly when its UPDATE finds
  the order due and replies, its release reaches Redis, and the cell still holds the unit then
  (`OrderRestock.CancelledAndRestockedIff`); after a lost UPDATE reply, or after its one release,
  no timeout makes up for it (`LostCancelIsNeverRestocked`, `OneReleaseOnly`). For an order with a
  schedule the cell never holds the unit, because `handleOrder` writes `PUBLISHED` first
  (`ArmedOrdersAreNeverRestocked`): `OrderRuns.SomeTimeoutRestocksNothing` is such a run.
- README.md:78 calls the gate oversell-proof. The exact account is `OrderTheorems.OversellAccount`:
  live orders exceed the units that back them by orders whose publish was stored although it was
  reported as failed, or whose event was dead-lettered, and whose unit was put back.
  `OrderRuns.SomeRunOversells` is a run for every configuration and start state in which an order
  can be bought at all; `OrderTheorems.CleanRunNeverOversells` is the case without.
- README.md:614-617 relies on the reconciler to heal a missed timeout. An undisturbed pass
  cancels a due order exactly when the order is on its page and not guarded
  (`OrderReconciler.PassCancelsIff`). The guard is kept when a call finds nothing due, and a
  schedule fires before its own deadline exactly when that is not a whole second
  (`OrderReconciler.FiresEarlyIff`), so an early firing keeps everybody from cancelling the order
  for 24 hours (`OrderGuard.EarlyFiringStrandsOrder`, reached by
  `OrderRuns.SomeScheduleStrandsItsOrder`). So does any error behind the guard, also for a due
  order: of GetOrder (`FailedGetStrandsOrder`), of an UPDATE that takes no effect
  (`MissedUpdateStrandsOrder`), and a SETNX whose reply is lost (`LostGuardStrandsOrder`): the
  redelivery finds the order guarded and is acknowledged (`OrderCluster.Cluster.ConsumeTimeout`).
- internal/order/service.go:65-67 promises that a failed publish restores the stock exactly once.
  The release restores it exactly when it reaches Redis while the cell holds the unit
  (`OrderPlaceRefund.PlaceRestoresIff`, `ErroredIsRestoredIff` over runs): not when Redis is down,
  the cell has expired, or a worker has already written `PUBLISHED`. On the path where the write
  of `RESERVED` fails without effect the cell is missing and nothing ever puts the unit back
  (`OrderPlaceRefund.MarkDecidesRefund`). Such units count as held in `Conservation`.
- internal/inventory/router.go:76 says that every shard is empty when the latch is set. That holds
  for a sweep without errors of its own or refunds of the SKU (`OrderSweep.SweepCoverage`); when
  exactly it fails is `OrderSweep.LatchesOverStockIff`. One failed probe of the only stocked shard
  is enough (`OrderRuns.SomeErrorLatchesStock`), and so is a refund behind a probe
  (`SomeRefundIsLatchedOver`).
- internal/waitingroom/room.go:58 promises to report whether the session was admitted. `Status`
  misses a stored token exactly when its ZRANK finds the session out of the queue
  (`WaitingRoom.StatusMissesTokenIff`), which is how a batch leaves the sessions it admits: it
  tells one of them only if the batch falls between its ZRANK and its EXISTS, and no call that
  starts later does, unless the session joins again (`StatusMissesAdmission`).
- internal/waitingroom/room.go:109-116 promises that a session passes the checkout gate once per
  token. All rooms share one key space, so that holds in every run exactly for the sessions whose
  admission key is not also a heartbeat key, or the admission key of another session
  (`WaitingRoomStore.SingleUseIff`). It is one exactly when `event:admitted:sid` has `:hb:` in it,
  or another `:admitted:` than its own (`SharesKeyIff`); a heartbeat of that name is then taken
  for a token (`HeartbeatAdmits`). The ids that the gateway draws have no colon and share no key in
  an event without one (`ColonFreeSharesNoKey`), and as long as no event has a colon every room
  behaves as if it were alone (`RoomsRunApart`, `RoomsAdmitApart`).

## Assumptions

- Order ids are fresh, and the FNV-1a hash of a user id is some number (`Config.hash`).
- All processes and stores read one clock that does not run backwards in the purchase protocol,
  the waiting room and the idempotency record. The token bucket and the circuit breaker take any
  clock readings; theorems that need a monotone clock say so.
- The token bucket computes in exact reals, where Lua rounds to doubles. The refill is given as a
  function with `refill(d) == d * rate`, which keeps products out of the proofs about runs.
- There is at least one shard. Time-to-live settings are positive, and the admission token lives
  for at least one second.
- Clients do not resend a command by themselves: each command takes effect at most once, so a
  decrement that is applied twice for one attempt is not among the outcomes.
- A circuit breaker around a Redis or JetStream command may refuse it at any time, which
  over-approximates `Resilience.CircuitBreaker`. That is sound for what holds in all runs; the
  runs that `OrderRuns` shows to exist do not depend on it: no command of theirs is refused, and
  none has more than one call that a breaker counts as failed (the three attempts of a publish
  are one call), less than a breaker with the default settings needs to open.
- One step stands for the payment webhook of README.md:647-653, and one for the arrival of some
  stored event on `orders.dlq`; no code of the repository produces either.
- One decrement or refund is one unit, whatever the quantity of the order: both scripts move the
  counter by one.

## Model

| member | source | states |
|---|---|---|
| OrderTheorems.Conservation | internal/inventory/router.go:48-106 | in every run, per SKU: shards + units held by orders + units lost with a reply = seeded stock, and no counter is negative, though timeouts refund the home shard |
| OrderTheorems.OversellAccount | internal/order/service.go:68-104 | the exact account: live orders + stock + held-but-not-live + lost = seed + live-but-not-held, and a live order is without a unit iff it is a doubled one |
| OrderTheorems.NoOversell | internal/order/service.go:68-104 | live orders + stock never exceed the seed plus the doubled orders, of which there are none without an unacknowledged stored publish or a dead letter |
| OrderTheorems.CleanRunNeverOversells | internal/order/service.go:106-133 | a run with no stored-but-failed publish and no dead letter never oversells, whatever else fails, is lost or is redelivered |
| OrderTheorems.StoredYetRefunded | internal/order/service.go:97-101 | from every state: a last publish stored with its reply lost, the release and the delivery make a live order that nothing backs |
| OrderRuns.SomeRunOversells | internal/order/service.go:97-101 | for every configuration and start state in which an order can be bought, a run that ends with live orders + stock = seed + 1 |
| OrderTheorems.OneOrderPerUser | migrations/000001_initial_schema.sql:21-33 | no two orders of one user for one event |
| OrderTheorems.AtMostOneRefund | internal/lua/release_stock.lua:4-10 | RESERVED is written and the unit put back at most once per order across Place, timeouts and dead letters, only after it was taken; a timeout's refund finds the row cancelled |
| OrderTheorems.SettledForever | internal/lua/release_stock.lua:5-6 | a published, compensated or expired cell never holds a unit again and nobody refunds that order later |
| OrderTheorems.PublishedIsNeverRefunded | cmd/worker/main.go:224-227 | after PUBLISHED is written no later step of any run refunds the order |
| OrderTheorems.TimeoutRestoresIff | internal/lua/release_stock.lua:4-10 | the release of a timeout moves the counter and the ledger by one exactly when it reaches Redis and the cell still holds the unit |
| OrderTheorems.DeadLettersNameTheirShard | internal/order/dlq.go:36-43 | a dead letter refunds the shard that was decremented; the fallback key is unreachable for stored events |
| OrderTheorems.CancelledOnce | internal/order/timeout.go:46-89 | at most one UPDATE cancels a row, not before its expiry; the version counts it; at most one cancelled event, only for a cancelled row; no later step undoes it |
| OrderTheorems.RowForever | internal/store/store.go:146-202 | a row keeps its identity, and PAID and CANCELLED_TIMEOUT are final |
| OrderTheorems.FallbackKeyIs | internal/order/dlq.go:38-41 | the key the model gives an event without one is, as a Redis key, the one the handler builds |
| OrderUnits.StepMovesUnits | internal/lua/release_stock.lua:4-10 | every step of every process takes at most one unit and puts at most one back, and the counters and the refund books agree |
| OrderUnits.ShardAccount | internal/inventory/router.go:48-106 | over every run each shard by itself holds what it held, plus refunds to it, less what was taken from it |
| OrderUnits.SkuAccount | internal/inventory/router.go:48-106 | over every run the shards of each SKU together hold what they held, plus the refunds of the orders that took a unit of that SKU, less what calls buying it took: no refund goes to another SKU or outside its shards |
| OrderUnits.RefundedByIff | internal/lua/release_stock.lua:4-10 | in every run an order counts as refunded by a party iff one of that party's releases reached Redis while the cell held the unit |
| OrderSweep.SweepCoverage | internal/inventory/router.go:56-76 | a sweep without refunds of its SKU or errors of its own that finds nothing ends with every shard at 0 when it sets the latch, whatever other calls do meanwhile |
| OrderSweep.ShardAtLatch | internal/inventory/router.go:56-76 | what a shard holds when the latch is set: what the probe left (nothing if it replied), plus later refunds to it, less later takes |
| OrderSweep.LatchesOverStockIff | internal/inventory/router.go:64-76 | in every run, a call that comes from the start of its sweep to the latch latches a SKU with stock iff some shard was refilled behind its probe of it |
| OrderSweep.ProbesMade | internal/inventory/router.go:56-76 | a call at the latch has probed every shard, and one in its sweep every shard before its offset, each in a step of the run |
| OrderRuns.SomeErrorLatchesStock | internal/inventory/router.go:64-76 | for every number of shards, if only the home shard has stock, a run on which one failed probe latches the SKU with all its stock there |
| OrderRuns.SomeRefundIsLatchedOver | internal/inventory/router.go:64-76 | for every number of shards, if one unit is left, a run without any Redis error that latches over it: it was put back behind the probe |
| OrderCalls.LatchRefusesIff | internal/inventory/router.go:51-54 | a set latch refuses the call iff the reply arrives; an error reads as "not sold out" |
| OrderCalls.SweepAlone | internal/inventory/router.go:56-78 | where a sweep by itself stands after any outcomes of its probes, and what it took: it passes empty shards and errors, ends at the first unit reported or at a refusal by the breaker, and latches only after every shard |
| OrderCalls.MarkIs | internal/order/service.go:80-85 | RESERVED lives for the reservation's time; any error leads to the refund |
| OrderCalls.PublishAlone | internal/order/service.go:106-133 | a publish is tried three times at most, ends well iff acknowledged, and leaves the event stored iff an attempt took effect |
| OrderCalls.RefundAlone | internal/inventory/router.go:83-106 | a refund by itself puts one unit back iff the release hits a held cell, and clears the latch iff besides its reply arrives and the deletion takes effect |
| OrderJobs.InsertsIff | migrations/000001_initial_schema.sql:21-33 | a row is inserted iff the id is new, user and product are known and the user has no order for that event; the delivery goes on iff the id is there or that is so |
| OrderRuns.SomeUserBuysTwice | migrations/000001_initial_schema.sql:32 | whenever a user can buy for two events, a run that ends with both orders in the table |
| OrderJobs.PaysIff | README.md:647-653 | a payment counts iff the order is pending and its deadline has not come |
| OrderJobs.OnePassLeads | internal/order/reconciler.go:57-63 | over every run nobody else leads within a minute of a pass that took the lock, and that one leads if it sees no error |
| OrderTheorems.OthersKeepPlace | internal/order/service.go:68-104 | a call's position changes only by its own steps |
| OrderInvariants.StepKeeps | cmd/worker/main.go:204-237 | every step of every process keeps the invariants of all orders, jobs and units, and changes each record only in the permitted ways |
| OrderInvariants.RunKeeps | cmd/worker/main.go:204-237 | so does every run |
| OrderInvariants.CompensateConserves | internal/lua/release_stock.lua:4-10 | a refund by any party leaves the ledger of every SKU unchanged |
| OrderGuard.TakingTheGuard | internal/order/timeout.go:47-54 | taking the guard excludes all other calls exactly when no other call is already past an earlier guard of the order; which of those can still act is OrderStale.OthersActIff |
| OrderStale.OthersActIff | internal/order/timeout.go:47-78 | while a guard lives, another call changes rows, stock or reservations in some continuation iff one is past the guard with its UPDATE to come on a pending row that expires before the guard does, or with its release to come and the unit still held |
| OrderGuard.GuardExcludesOthers | internal/order/timeout.go:47-54 | until the guard expires every step of every other call for the order leaves rows, stock and reservations alone |
| OrderGuard.TimeoutStepActsIff | internal/order/timeout.go:56-78 | the exact condition under which a step of ProcessTimeout changes rows, stock or reservations |
| OrderGuard.StaleCallActs | internal/order/timeout.go:48 | a call that outlives its guard can cancel the row while another call holds the new guard |
| OrderRuns.SomeStaleCallCancels | internal/order/timeout.go:48 | for every configuration a run from the start on which exactly that happens |
| OrderGuard.EarlyFiringStrandsOrder | internal/order/timeout.go:47-70 | after a call that came before the expiry, nobody cancels the order until the guard's day is over |
| OrderGuard.MissedUpdateStrandsOrder | internal/order/timeout.go:64-70 | nor after an UPDATE that takes no effect, for whatever reason |
| OrderGuard.FailedGetStrandsOrder | internal/order/timeout.go:56-62 | nor after any error of GetOrder, also on a due order |
| OrderGuard.LostGuardStrandsOrder | internal/order/timeout.go:47-54 | nor after a SETNX that sets the guard and loses its reply |
| OrderGuard.GuardedStaysUncancelled | internal/order/reconciler.go:77-85 | a guarded order that no call works on stays uncancelled through any run |
| OrderRuns.SomeScheduleStrandsItsOrder | internal/order/service.go:140 | if the payment deadline is not a whole second, a run reaches those premises, and no continuation within the guard's day cancels the order |
| OrderReconciler.FiresEarlyIff | internal/order/service.go:140 | an armed schedule is set for the whole second at or less than one second before its deadline, and can fire before the deadline iff that is not a whole number of seconds |
| OrderReconciler.CallCancelsIff | internal/order/timeout.go:46-89 | an undisturbed call without errors for a due order cancels it and announces that once iff the order is not guarded, and takes the guard |
| OrderReconciler.PassCancelsIff | internal/order/reconciler.go:65-85 | an undisturbed reconciler pass cancels a due order iff it is on the page and not guarded; a page that is not full has all due orders |
| OrderRestock.ArmedOrdersAreNeverRestocked | internal/order/service.go:136-168 | once a schedule is armed for an order its unit is never put back |
| OrderRestock.CancelledAndRestockedIff | internal/order/timeout.go:64-78 | over a whole call, others interleaving: it cancels iff the UPDATE takes effect on a due order; it cancels and restocks iff the UPDATE also replies, the release reaches Redis and the cell holds the unit |
| OrderRestock.LostCancelIsNeverRestocked | internal/order/timeout.go:64-67 | an order cancelled by an UPDATE whose reply is lost is never refunded by any timeout of any run |
| OrderRestock.OneReleaseOnly | internal/order/timeout.go:76-78 | after a call's one release, whatever its outcome, no timeout refunds the order |
| OrderRestock.ReleaseAfterCancelIff | internal/order/timeout.go:72-78 | at the release the row is cancelled, and stock changes iff the release reaches Redis and the cell holds the unit, which no order with a schedule does |
| OrderRuns.SomeTimeoutRestocksNothing | internal/order/timeout.go:46-89 | for every configuration a run without any error that cancels an order and leaves its unit out for ever |
| OrderPlaceRefund.PlaceRestoresIff | internal/order/service.go:97-101 | the release of a failed Place call moves the counter and the books iff it reaches Redis while the cell holds the unit |
| OrderPlaceRefund.ErroredIsRestoredIff | internal/order/service.go:82-101 | in every run a call that ended with an error made one release, and counts as refunded iff that one hit |
| OrderPlaceRefund.MarkDecidesRefund | internal/order/service.go:82-85 | the unit is refundable iff the write of RESERVED takes effect; otherwise no later run puts it back |
| OrderCluster.Cluster.NeverOversells | internal/order/service.go:68-104 | the imperative services satisfy the oversell bound and conservation at all times |
| OrderCluster.Cluster.Place | internal/order/service.go:68-104 | takes exactly the steps of a Place call; success means the event is stored, ErrSoldOut that there is no reported unit, no cell and no event (a decrement whose reply was lost may remain) and that the SKU is latched or a command met an error, any other failure that a command did |
| OrderCluster.Cluster.Reserve | internal/inventory/router.go:48-79 | takes exactly the sweep's steps, with other processes between probes; without a key the SKU is latched or a command met an error |
| OrderCluster.Cluster.Compensate | internal/inventory/router.go:83-106 | release then unlatch; without an error the unit is no longer held when it returns |
| OrderCluster.Cluster.PublishWithRetry | internal/order/service.go:106-133 | up to three attempts, an open breaker or a cancelled context ends them |
| OrderCluster.Cluster.ArmTimeout | internal/order/service.go:136-168 | the same for the schedule; without an error it is armed |
| OrderCluster.Cluster.HandleOrder | cmd/worker/main.go:204-237 | takes exactly the steps of a delivery; an acknowledged one leaves the row in the table and a published cell, and one is only refused after an error or because the constraints exclude its row |
| OrderCluster.Cluster.InsertOrder | internal/store/store.go:146-160 | replies from the rows before: NewRow iff the id is new, user and SKU are known and the user has no order for the event; RowExists iff the id is there; the new row is exactly the event's, pending |
| OrderCluster.Cluster.CancelOrderTimeout | internal/store/store.go:193-202 | the compare-and-swap; true leaves the row cancelled, false leaves nothing due |
| OrderCluster.Cluster.SelectExpired | internal/store/store.go:205-227 | at most 100 due orders, all of them if there are fewer, oldest first, and every due order left out is younger than all of them |
| OrderCluster.Cluster.ProcessTimeout | internal/order/timeout.go:46-89 | takes exactly the steps of a timeout; nil means nothing is due any more, ErrDuplicateTimeout that the order is guarded and no command failed, another error that one did |
| OrderCluster.Cluster.ConsumeTimeout | cmd/worker/main.go:139-149 | an acknowledged timeout leaves nothing due or the order guarded; one is only refused after an error |
| OrderCluster.Cluster.TickOnce | internal/order/reconciler.go:57-89 | one pass puts each order of the page, which was what the query returns at some point of the pass, through ProcessTimeout once; it fetches none only after an error or because another pass leads; `reconciled` counts the nils, and each of those orders is paid or cancelled for good |
| OrderCluster.Cluster.HandleDLQMsg | internal/order/dlq.go:29-51 | compensates with the event's key; without an error the unit is no longer held |
| InventoryKeys.ParseFormat | internal/inventory/router.go:108-115 | the SKU read back from any shard key is the SKU it was built from, whatever that contains |
| InventoryKeys.KeyText | internal/inventory/router.go:57 | the text of a shard's key, which the fallback shares for one digit |
| InventoryKeys.DecimalReads | internal/inventory/router.go:57 | the decimal digits of an index read back as the index, without a leading zero |
| InventoryKeys.MalformedNamesNoSku | internal/inventory/router.go:108-115 | a key without the separator, or with nothing in front of it, names no SKU |
| InventoryKeys.FormatInjective | internal/inventory/router.go:57 | two (SKU, shard) pairs never share a counter |
| Inventory.KeysAreDistinct | internal/order/dlq.go:37-41 | the model's counter keys, the fallback's included, are equal iff their Redis keys are |
| Inventory.ParseKeyString | internal/inventory/router.go:108-115 | every such key parses back to its own SKU, so a refund clears that SKU's latch |
| InventoryKeys.FallbackNamesShardIffOneDigit | internal/order/dlq.go:38-41 | the dead-letter fallback names the home shard iff its index is below 10, else no shard at all |
| Inventory.ReserveStockTakesOneIfAny | internal/lua/reserve_stock.lua:3-8 | succeeds iff the counter is positive, takes exactly one, and never leaves a counter negative |
| Inventory.ProbeCovers | internal/inventory/router.go:56-57 | the cyclic sweep visits every shard |
| Inventory.ProbeDistinct | internal/inventory/router.go:56-57 | and none twice |
| ShardRouter.SweepTakesFirst | internal/inventory/router.go:56-74 | the sweep takes one unit of the first non-empty shard in cyclic order from home |
| ShardRouter.FullSweep | internal/inventory/router.go:48-79 | a sweep succeeds iff the SKU has stock, and takes one unit of that SKU only |
| ShardRouter.SeedSplitsStock | internal/inventory/seeder.go:21-39 | shards sum to the stock iff it is not negative or divides evenly; a non-negative stock is spread with a difference of at most 1 |
| ShardRouter.SharesDescend | internal/inventory/seeder.go:21-39 | the first shards get more; a negative stock makes equal shares that round it toward zero |
| ShardRouter.ReserveLatchesIff | internal/inventory/router.go:48-79 | a reservation leaves the SKU latched iff it was or had no stock, and is refused iff so |
| ShardRouter.ShardsRefineOneCounter | internal/inventory/router.go:48-147 | on every uninterrupted run the shards and the latch answer like one counter, and the latch is set only at total 0 |
| ShardRouter.EmptySkuStaysLatched | internal/inventory/router.go:101-103 | for the empty SKU a refund does not clear the latch, and a reservation is refused with stock there |
| ShardRouter.Router.Reserve | internal/inventory/router.go:48-79 | the loop computes the sweep and sets the latch as specified |
| ShardRouter.Router.Compensate | internal/inventory/router.go:83-106 | the imperative refund is the specified one |
| ShardRouter.Router.SeedPartitionedStock | internal/inventory/seeder.go:21-39 | the loop writes the specified shares and clears the latch |
| ShardRouter.Router.Available | internal/inventory/seeder.go:42-61 | returns the sum over all shards |
| TokenBucket.GrantedBound | internal/lua/token_bucket.lua:13-32 | for any clock readings, also backwards: tokens stay in [0, capacity], and granted + left <= initial level + refill over the forward movements of the clock |
| TokenBucket.NothingIsLost | internal/lua/token_bucket.lua:13-32 | for any clock readings granted + left >= initial level: a request costs what it asks for and no more |
| TokenBucket.GrantedExactly | internal/lua/token_bucket.lua:13-32 | granted + left == initial level + refill, as long as that fits the capacity |
| TokenBucket.FittingRequestsAreAllowed | internal/lua/token_bucket.lua:22-26 | requests that together fit what the bucket holds are all allowed |
| TokenBucket.RateBound | internal/lua/token_bucket.lua:13-32 | a run grants at most capacity + rate * (sum of forward clock movements) |
| TokenBucket.MonotoneRateBound | internal/lua/token_bucket.lua:17-24 | with a monotone clock at most capacity + rate * elapsed time |
| TokenBucket.RetryAfterSuffices | internal/lua/token_bucket.lua:29-32 | after a denial and any denied calls since, the request at or after retry-after is allowed iff it fits the capacity |
| TokenBucket.RetryAfterIsLeast | internal/lua/token_bucket.lua:29-32 | with a monotone clock it is still denied at every whole second before, whatever calls were made and allowed in between |
| TokenBucket.EvictionIsInvisible | internal/lua/token_bucket.lua:13-25 | a bucket that is dropped after its idle TTL goes through the same states and gives the same answers as one that is kept |
| TokenBucket.TTLIsTwiceTheFill | internal/lua/token_bucket.lua:20 | the TTL is twice the least whole number of seconds that fills an empty bucket |
| TokenBucket.Bucket.Take | internal/lua/token_bucket.lua:5-32 | allows a request iff it is at most the stored tokens plus the refill, capped, and takes exactly that much; remaining is rounded down, retry-after is 0 when allowed |
| WaitingRoom.LexTotal | internal/waitingroom/room.go:42-45 | member names are totally ordered, which breaks ties of equal scores |
| WaitingRoom.LexIs | internal/waitingroom/room.go:42-45 | it is the order of byte strings: the first difference decides, and a prefix is first |
| WaitingRoom.InsertOrdered | internal/waitingroom/room.go:42-46 | a join keeps the set sorted without duplicates and adds that member only |
| WaitingRoom.RankIsPlace | internal/waitingroom/room.go:59-72 | the rank of a session is the number of members with a smaller score, or the same and a smaller name |
| WaitingRoom.NamesAre | internal/waitingroom/worker.go:77-101 | the sessions reported admitted are those of the living members of the popped prefix, in order |
| WaitingRoom.BatchTTLIs | internal/waitingroom/worker.go:82 | a batch's tokens live for the setting's whole seconds |
| WaitingRoom.BatchIsFifo | internal/lua/admit_batch.lua:5-17 | a batch admits the first min(rate, alive) living members in queue order, leaves the unpopped suffix, drops no living one, and empties the queue if it admits fewer |
| WaitingRoom.NoOvertaking | internal/waitingroom/worker.go:77-101 | across ticks nobody with a larger score, or the same and a larger name, than a session that stays live is admitted before it |
| WaitingRoom.AdmittedInTime | internal/waitingroom/worker.go:56-101 | a live session at rank r is admitted once ticks have had room for more than r and the joins since that sorted ahead of it |
| WaitingRoom.WaitBound | internal/waitingroom/worker.go:56-101 | at a constant rate that is by tick r / rate + 1, with such joins counted into r |
| WaitingRoom.SingleUse | internal/lua/consume_admit.lua:3-6 | in every run of a room by itself, successful consumes of a session + tokens there <= tokens issued + tokens there at the start |
| WaitingRoomStore.KeyLedger | internal/waitingroom/room.go:39-116 | in every run of all rooms in one store, per key: consumes that succeed + values there <= SETs of that key by anything + values there at the start |
| WaitingRoomStore.SingleUse | internal/lua/consume_admit.lua:3-6 | for a session whose admission key nobody shares, in every run of the whole store: consumes + tokens there <= tokens issued to it + tokens there at the start |
| WaitingRoomStore.SingleUseIff | internal/lua/consume_admit.lua:3-6 | consumes never exceed the issues, in every run from the empty store, iff nobody shares the session's admission key |
| WaitingRoomStore.SharesKeyIff | internal/waitingroom/room.go:30-35 | somebody does iff the key's text has ":hb:" in it, or a second ":admitted:" |
| WaitingRoomStore.ColonFreeSharesNoKey | internal/router/handlers.go:150-156 | nobody does if event and session id have no colon |
| WaitingRoomStore.HeartbeatAdmits | internal/waitingroom/room.go:76-88 | a run on which a heartbeat in another room is consumed as a token that nobody issued |
| WaitingRoomStore.OthersTokenAdmits | internal/waitingroom/room.go:33-35 | a run on which another session's token is |
| WaitingRoomStore.WrongTypes | internal/waitingroom/room.go:39-52 | on a queue key that holds a value a join only sets the heartbeat and a batch does nothing; a queue under a heartbeat key passes for one, under an admission key it is not consumed |
| WaitingRoomStore.DrainedQueueIsGone | internal/lua/admit_batch.lua:6-8 | after a batch the room's key is there iff a session is left |
| WaitingRoomStore.RoomsRunApart | internal/waitingroom/room.go:29-52 | while no event has a colon, each room of the store goes through exactly the states of WaitingRoom under its own actions |
| WaitingRoomStore.RoomsAdmitApart | internal/waitingroom/worker.go:77-101 | and admits the same tickets in the same order |
| WaitingRoomStore.NoOvertakingInAnyRoom | internal/waitingroom/worker.go:77-101 | so from the empty store nobody ordered after a session that stays live is admitted before it, in any of the rooms |
| WaitingRoom.TickIssuesToLiving | internal/lua/admit_batch.lua:5-17 | a batch issues tokens exactly to admitted sessions, each alive at that step, and takes them off the queue |
| WaitingRoom.StatusMissesTokenIff | internal/waitingroom/room.go:58-88 | Status misses a token that its EXISTS would find iff the session is out of the queue at its ZRANK; Heartbeat misses none |
| WaitingRoom.StatusMissesAdmission | internal/waitingroom/room.go:58-88 | after a batch admits a session, no Status call whose ZRANK comes later in any run reports it until the session joins again; one around the batch does, and Heartbeat does while the token is there |
| WaitingRoom.Room.Join | internal/waitingroom/room.go:39-52 | returns the session's place in the queue and refreshes its heartbeat; a first join adds that one ticket, a duplicate leaves the queue alone |
| WaitingRoom.Room.Status | internal/waitingroom/room.go:59-72 | two commands with interference between them: the place in the queue is that of the first, or -1 iff the session is not queued there; admitted iff it is and the second finds a token |
| WaitingRoom.Room.Heartbeat | internal/waitingroom/room.go:76-88 | refreshes liveness and returns the session's place in the queue, or -1 iff it has none, and whether it has a token |
| WaitingRoom.Room.Admit | internal/waitingroom/room.go:92-101 | issues a token iff the heartbeat was there at the first of its two commands |
| WaitingRoom.Room.ConsumeAdmission | internal/lua/consume_admit.lua:1-6 | succeeds iff an unexpired token is there, and deletes it |
| WaitingRoom.Room.AdmitBatch | internal/lua/admit_batch.lua:5-17 | the loop computes the specified batch |
| WaitingRoomKeys.ServesColonFreeRooms | internal/waitingroom/worker.go:56-70 | a worker for all events serves exactly the existing rooms whose event has no colon |
| WaitingRoomKeys.Targets | internal/waitingroom/worker.go:56-70 | the loop collects exactly those events, or the one configured |
| WaitingRoomKeys.RoomsAreApart | internal/waitingroom/room.go:29-35 | rooms of colon-free events share no queue, heartbeat or admission key |
| WaitingRoomKeys.RoomsAliasIff | internal/waitingroom/room.go:30-35 | two rooms can share a heartbeat (admission) key iff one of the events extended by ":hb:" (":admitted:") is a prefix of the other so extended; likewise for a heartbeat and an admission key |
| WaitingRoomKeys.RoomsMayAlias | internal/waitingroom/room.go:30-32 | a family of events with colons that do |
| Resilience.ClosedCountsTheStreak | internal/resilience/circuitbreaker.go:114-133 | in CLOSED the counter is the run of failures since closing, reset or the last success, and below the maximum |
| Resilience.TripsExactly | internal/resilience/circuitbreaker.go:117-121 | it opens exactly on the failure that completes such a run |
| Resilience.HalfOpenCountsProbes | internal/resilience/circuitbreaker.go:133-138 | in HALF_OPEN the counter is the successes since it was entered from OPEN, with no failure since, below the required number |
| Resilience.ClosesOnlyAfterProbes | internal/resilience/circuitbreaker.go:133-139 | without Reset it closes only on the success that completes that number |
| Resilience.ProbeFailureReopens | internal/resilience/circuitbreaker.go:122-126 | a half-open breaker reopens exactly on a failure |
| Resilience.LastFailedAtIsLatest | internal/resilience/circuitbreaker.go:114-115 | lastFailedAt is the latest failure since a Reset, also of a call that ended late |
| Resilience.RefusedIff | internal/resilience/circuitbreaker.go:89-99 | over every log a call is refused iff the breaker is open within the cooldown of the latest failure; closed and half-open ones let every call start |
| Resilience.OpenStep | internal/resilience/circuitbreaker.go:81-87 | an open breaker turns half-open on the first call or check after the cooldown, closes on a Reset, and else stays |
| Resilience.HalfOpenClosesIff | internal/resilience/circuitbreaker.go:133-139 | a half-open breaker closes iff the success completes the required number, or on a Reset |
| Resilience.DefaultsAreForMissingSettings | internal/resilience/circuitbreaker.go:58-72 | positive settings are kept, others replaced one by one |
| Resilience.OpenAdmitsIff | internal/resilience/circuitbreaker.go:81-97 | an open breaker admits a call iff the cooldown since the latest failure is over |
| Resilience.NoStartBeforeCooldown | internal/resilience/circuitbreaker.go:81-127 | over every run with a monotone clock and no Reset: no call starts within the cooldown of any failure that found or left the breaker open |
| Resilience.ClosesWithoutProbeIff | internal/resilience/circuitbreaker.go:100-139 | an open breaker can close with no Reset and no call let through iff at least as many calls are in flight as successes are required |
| Resilience.StaleSuccessesClose | internal/resilience/circuitbreaker.go:100-139 | for every configuration a log from the start on which it does |
| Resilience.CircuitBreaker.Execute | internal/resilience/circuitbreaker.go:89-112 | answers ErrCircuitOpen iff the breaker is open and its last failure is less than the cooldown ago, else runs the function and returns its result, with any steps of other callers meanwhile; a function that panics is never counted |
| Resilience.CircuitBreaker.Begin | internal/resilience/circuitbreaker.go:90-97 | the first locked section is the Begin step of the log, and refuses iff open within the cooldown |
| Resilience.CircuitBreaker.End | internal/resilience/circuitbreaker.go:102-111 | the second is the End step, whatever state the breaker is in by then |
| Idempotency.AtMostOneExecution | internal/middleware/idempotency/idempotency.go:80-143 | within every lifetime of the record that began while nobody held the claim, whatever came before: at most one execution in flight, at most one ends below 500, replays show that one's status and the first megabyte of its body |
| Idempotency.LookupAnswers | internal/middleware/idempotency/idempotency.go:101-115 | in every run a duplicate is answered with the stored status and body iff its lookup replies and there is a body, else with 409 |
| Idempotency.DuplicatesReplay | internal/middleware/idempotency/idempotency.go:101-143 | after an execution below 500 with a body is recorded in a clean lifetime, and until the record expires, every later request with the same fingerprint whose claim and lookup reply gets its status and the first megabyte of its body |
| Idempotency.OutcomeRecorded | internal/middleware/idempotency/idempotency.go:128-143 | what the end of an execution writes into the record |
| Idempotency.FailureMayBeRetried | internal/middleware/idempotency/idempotency.go:128-136 | in any run, once a status of 500 or more is recorded the next claim executes |
| Idempotency.CapIs | internal/middleware/idempotency/idempotency.go:167-174 | of a body the first megabyte is kept, and all of it up to there |
| Idempotency.RetriesFollowFailures | internal/middleware/idempotency/idempotency.go:128-136 | every execution but the first makes up for one recorded FAILED |
| Idempotency.OnlyExecutedRequestsRan | internal/middleware/idempotency/idempotency.go:82-121 | a request answered with a replay, 409, 422 or 503 has not run, in any run |
| Idempotency.ClaimIs | internal/lua/claim_idem.lua:3-10 | in every run a claim goes through iff there is no record or it says FAILED; else another body is a mismatch and the record stays |
| Idempotency.CompletedForeverIff | internal/lua/claim_idem.lua:4-7 | in any run a COMPLETED record stays as it is until it expires, in every continuation, iff each request that still holds a claim has ended with just that response |
| Idempotency.CompletedForever | internal/lua/claim_idem.lua:4-7 | so it does in a clean lifetime, and whenever no request holds a claim, and nothing runs meanwhile |
| Idempotency.RecordsAreApartIff | internal/middleware/idempotency/idempotency.go:73-78 | two requests share a record iff they carry the same key and `user:event` reads the same; without colons in user ids, iff user, event and key agree |
| Idempotency.ExpiryIsCleanIff | internal/middleware/idempotency/idempotency.go:80-81 | a new lifetime is of that kind iff no request holds the claim when the record expires |
| Idempotency.LapseAdmitsAnother | internal/middleware/idempotency/idempotency.go:80-81 | when the record expires during an execution the next claim always starts a second one |
| Idempotency.BodyOfJoins | internal/middleware/idempotency/idempotency.go:163-176 | the body is what the writes wrote, one after the other |
| Idempotency.StatusesAre | internal/middleware/idempotency/idempotency.go:158-166 | the recorded status is that of the last WriteHeader, or 200; the one sent is that of the first operation that fixes one |
| Idempotency.RecordsWhatWasSent | internal/middleware/idempotency/idempotency.go:158-176 | the recorded status is the one the client got iff the handler did something and its last WriteHeader, if any, is that status; informational headers fix none |
| Idempotency.ResponseRecorder.Write | internal/middleware/idempotency/idempotency.go:163-176 | the recorder holds the first megabyte of everything written, passes all of it on, and defaults the status to 200 |
| Idempotency.Middleware.ClaimIdem | internal/lua/claim_idem.lua:3-10 | the imperative script is the specified step |
| Idempotency.Middleware.Handle | internal/middleware/idempotency/idempotency.go:80-143 | takes exactly the steps of one request; its reply is the one that the record found by its claim, and by its lookup, determine: 503, the handler's response, 422, replay or 409 |

## Left out

- WaitingRoom.SingleUse: for a room that shares no key with another; `WaitingRoomStore` has them all.
- Idempotency.AtMostOneExecution: says nothing about a lifetime that began while a request still
  held an earlier claim, because then it does not hold (`LapseAdmitsAnother`).
- Idempotency.Middleware.Handle: starts after the checks of the method, the key's UUID format and
  the size of the body, and leaves out a script reply that cannot be decoded.
- OrderReconciler.PassCancelsIff: an undisturbed pass without errors; under interference the
  bounds are those of `OrderGuard` and `OrderCluster.Cluster.TickOnce`.
- Idempotency.RecordsWhatWasSent: a WriteHeader with a code outside 100-999, on which net/http
  panics, is left out.
- TokenBucket.Bucket.Take: rounding of doubles.
- The atomicity of Redis, PostgreSQL and JetStream commands is taken as given; so are pipelines
  and transactions. The non-atomic refund of a Redis cluster (README.md:547-552) is not modelled.
- Backoff sleeps, tickers, shutdown, logging, metrics and the notification of admitted sessions.
- The deletion of a room's queue by the seeding command (cmd/gateway/seed.go:40).
- HTTP routing, JWT, CORS, request ids, the proxy, configuration and health checks.
- The decoding of limiter replies and the limiter's choice to fail open when Redis is down.
- The cursor of the reconciler's page: the query has a limit and no cursor.
- Liveness: a process may stop at any step, so nothing is promised to happen eventually beyond the
  wait bound, which counts ticks.
