# Verification of the flash-sale stock system

This project models how one unit of stock lives in Redis, Kafka and MySQL, under concurrency, replay and
crashes, and proves what the system promises about it: no oversell, no lost stock, one order per request.

Each protocol is a transition system. A Redis script, a SQL statement and a Kafka append are one step each; a
crash is a process that takes no further step. Calls of any number of processes interleave freely. An
inductive invariant gives theorems about every run (`Reaches(Step, s, t)`); `Runs.dfy` holds the induction
principles, `Sums.dfy` the sums over tables, `Common.dfy` a few small types. Beside each protocol a `...Code`
module holds the source's functions as methods over the shared state: between two of their commands `Others`
lets the rest of the system take any number of steps, so every method is proved to be a run of the protocol,
under all interference. What `Others` (`Interfere`) does is left open: callers know only its contract, "some
run, in which nobody else moves this caller". Objects behind a mutex (token bucket, breaker, id node) are
classes.

| files | part of the system |
|---|---|
| `Ledger.dfy`, `Reconciliation.dfy`, `Repeats.dfy`, `LedgerCode.dfy` | pre-deduct ledger, reconcilers, the identity check |
| `OrderTx.dfy` | the transaction with row lock and unique request id |
| `OptimisticLock.dfy`, `LeaseLock.dfy`, `RedisGate.dfy` | version CAS and conditional update, leased token lock, Redis gate |
| `Consumer.dfy` | Kafka consumer: replay, bounded retry, dead letters, commits |
| `Buckets.dfy` | stock split over bucket keys |
| `TokenBucket.dfy`, `Breaker.dfy` | overload primitives |
| `Expiry.dfy`, `ExpiryClose.dfy` | expiry index and closing of expired orders |
| `Reservation.dfy` | reservation scripts and the async order service |
| `Snowflake.dfy`, `ProductCache.dfy` | ids, cache-aside |

## What turned out not to hold

Each of these is a lemma with a concrete run or family of runs, next to the condition under which the
promise holds.

- `Reconciliation.TwoReadsGoNegative`: `CheckIdentity` reads Redis and then the table, and a request that
  comes and lands in between makes `Leaked` negative in a perfectly prompt run. The check is off by exactly
  what landed between its reads (`Reconciliation.CheckedIsOffByLandings`); requests that were there at the
  first read cannot make it negative (`Reconciliation.OnlyNewcomersMakeItNegative`).
- `Reconciliation.FailedRollbackIsLost`: the error of the rollback is dropped and the ledger entry is closed
  after it, so the stock is gone although nobody died. After settlement the leak is exactly the stock of
  unrecoverable requests: those that died before recording (a gate script whose reply was lost included), and
  these (`Reconciliation.SettledLeak`); with no timing assumption, less what was given back twice
  (`Reconciliation.SettledLeakAnyTiming`).
- `Reconciliation.LateLandingOversells`: a message that lands after its window is refunded first, and the
  identity goes negative.
- `Reconciliation.RepeatBuriesLeak`: a request enqueued again keeps the age of the first call's pending
  entry, but if the repeat's produce fails it closes that entry, stamped with its own instant, and the first
  call's stock cannot be given back any more. `Repeats.SecondAcceptedUnitIsGone`: of two accepted calls of one
  id the second's stock never comes back, though nothing fails. Of all deductions of one request at most one is
  given back by reconcilers (`Repeats.RepeatsAreGivenBackOnce`).
- `OrderTx.RetryCanBeRefused`: of two concurrent calls with one request id, the loser can be told
  "insufficient stock" although its order exists. A call whose generated id is taken while its request has no
  row gets "no rows". Every other reply is the atomic operation's reply, and these are not
  (`OrderTx.ReplyIsAtomic`).
- `LeaseLock.OutlivedLeaseOversells`, `LeaseLock.LateCommitCanOversell`: a critical section that outlives
  its lease oversells, and from every state with such a section the others can let it happen. Inside leases
  stock stays non-negative; the books balance either way.
- `Consumer.DroppedRecordIsCommittedOver`: a record whose processing returns an error is skipped, and the
  next commit passes it for good.
- `Breaker.ThreeProbesUnderALimitOfTwo`: probes of older rounds can push the number of running probes over
  the limit; each round by itself starts at most the limit.
- `BucketsCode.SpreadIsExact`: the buckets sum to the stock if and only if the stock is not negative or
  divides evenly.
- `AsyncOrder.ReservedIffProduced`: a reserve whose reply is lost, or a failed compensation, leaves a
  reservation without a message, and a compensated repeat restores the stock of an order that is already in
  the topic; two submissions at once do that too (`AsyncRuns.ConcurrentRepeatLosesReservation`).
- `ProductCache.OvertakenLoadLeavesOldRow`: a load overtaken by a whole update leaves an old row cached with
  no delete to come; the TTL still bounds its age.
- `ExpiryIndex.DrainEndsIffScoresMove`: with a whole-millisecond extension below one the due set never drains.
- `RedisGate.OverlappedWarmOversells`: `WarmStock` reads the row and then sets the counter; an order that
  commits in between makes it oversell though no stock is out at either command. Warming keeps the gate if and
  only if no stock is out when it writes and the row has not changed since it read
  (`RedisGate.WarmKeepsGateIffQuiet`).

## Model

| member | source | states |
|---|---|---|
| Ledger.EveryRunIsAccounted | internal/reconcile/p2_reconcile.go:40-143 | in every run, with any repeats of ids, failing commands, lost replies, crashes, late landings and reconcilers: the leak is the stock calls hold open less what reconcilers gave back, each request is refunded at most once, all reports sum to what was given back, and count how often, but for lost replies, and outcome counts sum to `Scanned` |
| Ledger.EveryReportIsTrue | internal/reconcile/p2_reconcile.go:114-143 | what each count of every report means in every run: young counts the entries that were pending and within the window; refunded, its quantity, settled and already reconciled count the refunds the round made, the entries it closed on an order row and those it found closed, but for one lost reply |
| Ledger.StepKeepsInv | internal/reconcile/p2_reconcile.go:40-104 | every command of an enqueue call or a round, failed rollbacks included, keeps calls, ledger entries, stale snapshots and refunds consistent |
| Ledger.StepKeepsBalance | internal/reconcile/p2_reconcile.go:40-104 | every command moves Redis stock, ordered quantity, open quantity and refunds by amounts that cancel |
| Ledger.CallActionBalances | internal/reconcile/p2_reconcile.go:40-59 | the leak moves with every command of a call, and with the fate of its message, exactly as the open stock does |
| Ledger.SettleBalances | internal/reconcile/model.go:200-243 | the settle script gives back exactly what it adds to the refunds, however stale the caller's entry is |
| Ledger.StepKeepsReported | internal/reconcile/p2_reconcile.go:114-143 | reports and refunds grow together at every step, in quantity and in number, so a cancelled or failed round still reports what it did; only a lost reply goes unreported |
| Ledger.StepKeepsTraces | internal/reconcile/p2_reconcile.go:114-143 | every command keeps the counts of all rounds equal to what the rounds did |
| Ledger.RunGrows | internal/reconcile/model.go:104-123 | along a run calls keep their data, rows stay, refunds are only added and ledger entries only close |
| Ledger.EntriesOnlyClose | internal/reconcile/model.go:104-123 | however often its request is enqueued again, a pending entry keeps its `CreatedAt`; a closed entry never changes |
| Reconciliation.StepKeepsDistinct | internal/reconcile/p2_reconcile.go:40-104 | with distinct ids every step keeps call, entry, row and refund of each request in agreement |
| Reconciliation.LeakIsNet | internal/reconcile/p1_leak.go:45-77 | with distinct ids the leak is the sum of what the requests hold, refunds taken off request by request |
| Reconciliation.PromptRunsNeverOverReturn | internal/reconcile/p1_leak.go:45-77 | when requests finish within the window, the leak of any one moment is never negative |
| Reconciliation.NetIsAllOrNothing | internal/reconcile/p2_reconcile.go:40-104 | in such runs a request holds its whole quantity or none of it |
| Reconciliation.CheckedIsOffByLandings | internal/reconcile/p1_leak.go:57-77 | the check, with its two reads at two moments, is the leak at the first less what landed in between, and negative if and only if more landed than requests held |
| Reconciliation.OnlyNewcomersMakeItNegative | internal/reconcile/p1_leak.go:57-77 | in a prompt run the check is not negative unless a request that began after the first read landed before the second |
| Reconciliation.TwoReadsGoNegative | internal/reconcile/p1_leak.go:57-67 | a prompt run in which that happens |
| Reconciliation.SettledRequest | internal/reconcile/p2_reconcile.go:49-104 | with no timing assumption, a settled request costs stock only if it is unrecoverable and returns it twice only if it was refunded and also landed or gave its stock back |
| Reconciliation.SettledLeakAnyTiming | internal/reconcile/p1_leak.go:45-77 | with distinct ids and no timing assumption, the settled leak is the stock of unrecoverable requests less the stock given back twice |
| Reconciliation.SettledLeak | internal/reconcile/p1_leak.go:45-77 | in prompt runs, once nothing is in flight and every entry is closed, the leak is exactly the stock of unrecoverable requests (dead before recording, or rollback failed and entry closed), and it is zero if and only if there are none |
| Reconciliation.FailedRollbackIsLost | internal/reconcile/p2_reconcile.go:50-55 | a prompt run without a crash that ends settled and leaks |
| Reconciliation.LateLandingOversells | internal/reconcile/p2_reconcile.go:61-104 | the window is needed: a late landing makes the leak negative |
| Reconciliation.RepeatBuriesLeak | internal/reconcile/p2_reconcile.go:49-57 | distinct ids are needed: a repeat can close the first call's entry and bury its leak |
| Repeats.EveryRunOriginates | internal/reconcile/model.go:104-123 | every ledger entry and every refund, whatever repeats, carries what some call of its request asked for |
| Repeats.LeakByRequest | internal/reconcile/p1_leak.go:45-77 | in every run, repeats included, the leak of a product is the sum over requests of what their calls hold less their refund |
| Repeats.RepeatsAreGivenBackOnce | internal/reconcile/p2_reconcile.go:40-104 | of n stranded deductions of one request, one at most is ever given back: the request holds n or n - 1 times its quantity |
| Repeats.DuplicatesStayStranded | internal/order/order.go:30-39 | an accepted repeat whose message finds another call's row is stranded for good |
| Repeats.SecondAcceptedUnitIsGone | internal/reconcile/p1_leak.go:31-43 | a run without any failure in which two calls of one id are accepted, one order is placed and one unit leaks |
| LedgerCode.CrashSwitch.constructor | internal/reconcile/model.go:47-52 | a switch with budget `n` |
| LedgerCode.CrashSwitch.Fire | internal/reconcile/model.go:54-69 | under racing callers at most the budget fires, and a call that does not fire found it spent |
| LedgerCode.Cluster.TryPreDeduct | internal/deduct/prededuct.go:31-65 | takes exactly the quantity if and only if the script runs and the counter exists and is at least the quantity, else changes nothing; an error may hide either |
| LedgerCode.Cluster.PassGate | internal/deduct/prededuct.go:56-65 | passes if and only if the script answers and the counter is at least the quantity; a gate error ends the call; a script that acted unheard leaves its deduction behind |
| LedgerCode.Cluster.RecordPreDeduct | internal/reconcile/model.go:104-123 | an existing entry stays as it is, age and all; otherwise exactly this call's pending entry is written |
| LedgerCode.Cluster.RecordOrStop | internal/reconcile/p2_reconcile.go:44-46 | an error of the record ends the call without compensation, with or without an entry left behind |
| LedgerCode.Cluster.Compensate | internal/reconcile/p2_reconcile.go:50-56 | the rollback may fail unnoticed; the entry is closed all the same unless settling fails, which is reported |
| LedgerCode.Cluster.EnqueueWithLedger | internal/reconcile/p2_reconcile.go:40-59 | each result if and only if its cause, in the order of the source: gate error, counter below the quantity, record error, a crash taken from the budget, produce, settle; under all interference, where the call then stands and whether its stock came back; an entry of an earlier call keeps its age while pending |
| LedgerCode.Cluster.EnqueueWithCrash | internal/reconcile/p1_leak.go:21-43 | the path without a ledger, each result with its cause: a gate error may hide a deduction, a simulated crash leaves the request unrecoverable, a failed rollback is not noticed |
| LedgerCode.Cluster.RunSettle | internal/reconcile/model.go:200-243 | acts if and only if the entry is still pending, closes it, and adds one refund or none |
| LedgerCode.Cluster.Decide | internal/reconcile/p2_reconcile.go:84-104 | settled if and only if the order was there at the look-up and the entry still pending at the settle script, refunded if and only if it was not there and still pending, already reconciled if and only if closed by then; "refunded" adds exactly this refund; a failing command or a lost reply gives no verdict |
| LedgerCode.Cluster.ReconcileEntry | internal/reconcile/p2_reconcile.go:61-104 | the three gates in their order: every outcome if and only if its condition on the entry, its age, the order row and the ledger |
| LedgerCode.Cluster.ScanLedger | internal/reconcile/model.go:125-158 | if SCAN lists every key that is there throughout, as it guarantees, every entry present at the start is fetched |
| LedgerCode.Cluster.ReconcileOnce | internal/reconcile/p2_reconcile.go:106-143 | whether the round completes, is cancelled or meets an error, its report counts exactly the finished entries, each under what was done with it: young by age, the rest by refunds made, entries closed on an order row, entries found closed; a completed round has closed every entry of its start that was past its window |
| LedgerCode.Cluster.ReconcileNext | internal/reconcile/p2_reconcile.go:125-140 | one turn of the loop moves the round by one handled entry, and the one count of the report that its outcome names, or nothing on an error |
| LedgerCode.Cluster.SumOrders | internal/reconcile/p1_leak.go:63-67 | the sum over the rows of one product |
| LedgerCode.Cluster.CheckIdentity | internal/reconcile/p1_leak.go:45-77 | with anything happening between its two reads: off by exactly what landed in between; in prompt runs negative if and only if more landed than was held; after settlement, with no landing in between, it holds if and only if no request is unrecoverable |
| OrderTx.EveryRunIsSafe | internal/order/order.go:19-95 | for every statement-level interleaving: stock stays non-negative, stock plus ordered quantity is the initial stock, one order per request id |
| OrderTx.StepKeepsInv | internal/order/order.go:19-95 | every statement keeps locks, uncommitted inserts, rows and stock consistent |
| OrderTx.SuccessesAgree | internal/order/order.go:69-83 | all successful calls with one request id return the same order |
| OrderTx.TablesChangeOnlyAtCommit | internal/order/order.go:87-94 | committed tables change in a replying commit and nowhere else |
| OrderTx.ReplyIsAtomic | internal/order/order.go:19-95 | a reply other than an abort is that of the atomic "return the existing order, else place" if and only if it is neither the locked read of a request that has its order nor the failed search for a winner |
| OrderTx.NoRowsMeansIdCollision | internal/order/order.go:69-83 | in every run, "no rows" is told only to a call whose generated id is the primary key of another request's order |
| OrderTx.LockedStockStands | internal/order/order.go:41-54 | no run of other transactions changes the stock a call has locked, or moves the call |
| OrderTx.RowsStay | internal/order/order.go:69-94 | no run changes or removes an order row |
| OrderTx.RetryCanBeRefused | internal/order/order.go:41-54 | a run in which a retry is refused for stock although at every moment it had its order or could be placed |
| OrderTxCode.Database.FastPath | internal/order/order.go:30-39 | finds the committed order of the request if and only if there is one |
| OrderTxCode.Database.LockStock | internal/order/order.go:41-54 | each refusal if and only if its condition holds on the locked row |
| OrderTxCode.Database.InsertOrder | internal/order/order.go:56-84 | a duplicate exactly if the id or the request has a committed row, a timeout if and only if an uncommitted insert of another call on the id or the request is in the way |
| OrderTxCode.Database.ReadWinner | internal/order/order.go:72-82 | the winner's committed row, or "no rows" |
| OrderTxCode.Database.UpdateAndCommit | internal/order/order.go:87-94 | after commit the row of exactly this request exists and the stock has fallen by exactly its quantity, whatever ran in between |
| OrderTxCode.Database.PlaceOrderTx | internal/order/order.go:19-95 | the whole call is a run of the protocol; a request that has its order gets it, whoever holds locks; success returns the one row of the request; every other reply is explained by the statement it came from and the state that ran on: a lock only behind the missed fast path |
| OptimisticLock.EveryRunIsSafe | internal/deduct/optimistic.go:34-142 | on either path: no oversell, no lost stock, and on the CAS path `version` counts the committed orders |
| OptimisticLock.StepKeepsInv | internal/deduct/optimistic.go:34-142 | every statement keeps the row, and what each attempt knows about it, consistent |
| OptimisticLock.ExhaustionMeansOvertaken | internal/deduct/optimistic.go:42-92 | giving up means at least `MaxCASRetries` distinct orders committed during the call |
| OptimisticLockCode.Database.TryCas | internal/deduct/optimistic.go:43-77 | each answer of an attempt with its exact condition on the row it read and the row its update met, others in between |
| OptimisticLockCode.Database.RunAttempt | internal/deduct/optimistic.go:42-90 | one pass of the loop: another round if and only if its update met another version and attempts are left; otherwise the reply, each with its exact condition on the states its read, its update and its insert ran on |
| OptimisticLockCode.Database.InsertAndCommit | internal/deduct/model.go:64-86 | places exactly this order if id and request are new, else changes nothing |
| OptimisticLockCode.Database.PlaceOrderByVersionCAS | internal/deduct/optimistic.go:34-93 | every reply, success included, has its exact condition on the states the read, update and insert of the last attempt ran on; no earlier attempt failed; success adds exactly its row and takes its quantity; exhaustion has its cause |
| OptimisticLockCode.Database.PlaceOrderByConditionalUpdate | internal/deduct/optimistic.go:106-142 | every reply if and only if its condition on the states the update and the insert ran on; success adds exactly its row and takes its quantity; stock plus orders is constant |
| LeaseLock.EveryRunIsLeaseSafe | internal/deduct/lock.go:76-154 | a holder within its lease is unique and owns the stored token; stock plus orders is constant even when leases overlap |
| LeaseLock.OthersCannotTouchTheLock | internal/deduct/lock.go:69-90 | acquire, release and late renew of others leave a leased key alone |
| LeaseLock.LostLeaseStaysLost | internal/deduct/lock.go:81-90 | a renew never revives a lease that is over |
| LeaseLock.RenewExtendsOrDoesNothing | internal/deduct/lock.go:81-90 | a renew in time gives a full new lease, a renew by a non-owner changes nothing |
| LeaseLock.NoOversellInsideLeases | internal/deduct/lock.go:156-218 | if every commit happens inside its lease, stock stays non-negative |
| LeaseLock.LateCommitCanOversell | internal/deduct/lock.go:156-218 | from every reachable state in which a worker has read the stock, lost its lease and not been served, the others can proceed inside their leases so that its commit oversells |
| LeaseLock.OutlivedLeaseOversells | internal/deduct/lock.go:156-218 | a run that oversells, with the books still balanced |
| LeaseLockCode.Shop.AcquireLock | internal/deduct/lock.go:100-113 | if the SET runs, it takes the key exactly if no live key is stored; success holds the lease; an error may hide that the key was set |
| LeaseLockCode.Shop.ReleaseLock | internal/deduct/lock.go:120-129 | if the script runs, the key is deleted if and only if it stores this token, and a leased holder finds it held; if it fails, the key stays and an error is reported |
| LeaseLockCode.Shop.CriticalSection | internal/deduct/lock.go:180-217 | every reply if and only if its condition on the stock it read and the rows its transaction met; success takes exactly its quantity and adds its row |
| LeaseLockCode.Shop.Watchdog | internal/deduct/lock.go:131-154 | the renew loop stops early only when the lock is no longer its own or a renew reports an error; with punctual ticks and no error the lease never lapses |
| LeaseLockCode.Shop.PlaceOrderWithLock | internal/deduct/lock.go:166-218 | every reply if and only if its condition on the key, the state read and the state written; afterwards the lock is not held by this call, unless the acquire's reply was lost or the release, whose error is dropped, failed |
| LeaseLockCode.OrdersOnlyGrow | internal/deduct/lock.go:166-218 | no run changes or removes an order row |
| RedisGate.TheGateHolds | internal/deduct/prededuct.go:83-117 | after one warm-up, in every run with crashes: the row equals Redis plus all stock that is out, neither is negative, no queued record is refused for stock |
| RedisGate.StepKeepsInv | internal/mq/p1_async.go:48-80 | deduct, commit, rollback, produce, landing and dead-lettering keep that equation |
| RedisGate.RowCoversCall | internal/deduct/prededuct.go:83-117 | whatever one call holds out is in the row |
| RedisGate.RowOnlyFalls | internal/deduct/prededuct.go:83-117 | in every run the row never rises |
| RedisGate.WarmKeepsGateIffQuiet | internal/deduct/model.go:50-62 | a warm-up that reads in one state and writes in a later one keeps the gate if and only if no stock is out when it writes and the row is still what it read |
| RedisGate.OverlappedWarmOversells | internal/deduct/model.go:50-62 | a run in which no stock is out at either command of the warm-up and the row goes negative |
| RedisGateCode.Shop.WarmStock | internal/deduct/model.go:50-62 | with anything in between its two commands: the counter is the row it read, and the gate holds afterwards exactly under that condition |
| RedisGateCode.Shop.TryPreDeduct | internal/deduct/prededuct.go:31-65 | takes exactly the quantity if and only if the script runs and Redis has enough; an error may hide either |
| RedisGateCode.Shop.Rollback | internal/deduct/prededuct.go:67-70 | gives back the call's quantity once, if it takes effect |
| RedisGateCode.Shop.PlaceOrderWithPreDeduct | internal/deduct/prededuct.go:83-117 | every reply if and only if its condition on the counter and the rows the transaction met; a gate error may leave the stock out; a failed call has given its stock back exactly if its rollback, whose error is dropped, took effect |
| RedisGateCode.Shop.EnqueueOrder | internal/mq/p1_async.go:48-80 | every reply if and only if its condition; an accepted record is never one that its landing would refuse; a gate error may leave the stock out; a failed produce has given its stock back exactly if its rollback took effect |
| Consumer.CommittedIsCoveredOrDropped | cmd/api/main.go:156-198 | through crashes and replays every offset below the committed one has its order or its dead letter, unless the loop dropped it |
| Consumer.OneEffectPerRequest | internal/mq/p1_async.go:112-121 | a request has at most one row, and exactly one if its committed record was neither dropped nor dead-lettered |
| Consumer.StepKeepsInv | cmd/api/main.go:156-198 | poll, process, dead-letter, commit and crash keep positions and coverage consistent |
| Consumer.PassedIsNeverRetried | internal/mq/p2_commit.go:20-27 | commits never go back and a passed record is never dead-lettered later |
| Consumer.DroppedRecordIsCommittedOver | cmd/api/main.go:177-197 | a record whose processing failed is lost once the next one commits |
| ConsumerCode.TotalWait | internal/mq/p3_retry.go:23-41 | the doubling waits of `n` retries sum to base * 2^n - base |
| ConsumerCode.Worker.ProcessWithRetry | internal/mq/p3_retry.go:20-56 | how many attempts, which waits, when it gives up, and dead-lettered if and only if all attempts failed uncancelled and the topic accepted it |
| ConsumerCode.Worker.ConsumeRecord | cmd/api/main.go:177-197 | a record some attempt of three places has its row, one all attempts fail on and the topic takes has its dead letter, and in both cases its offset is committed exactly if the commit works; any other record, and no other, is dropped |
| Buckets.EveryBucketIsConserved | internal/bucket/model.go:67-155 | for every interleaving, bucket by bucket: never negative, content plus what was taken and not given back is the initial content, and the row never goes negative |
| Buckets.StepKeepsInv | internal/bucket/model.go:67-155 | deduct, commit and rollback each keep those equations |
| Buckets.BucketsRefineOneCounter | internal/bucket/model.go:67-98 | every bucket step is one the single counter on the sum would grant too |
| Buckets.QuietRunsOnlyDrain | internal/bucket/p1_bucket.go:50-64 | without rollbacks no bucket grows |
| Buckets.FragmentationBound | internal/bucket/p1_bucket.go:50-64 | if no bucket of n has q, at most n * (q - 1) is left; for one unit, nothing |
| Buckets.FragmentationIsTight | internal/bucket/p1_bucket.go:50-64 | for every n and q that bound is met |
| BucketsCode.StartBucket | internal/bucket/p1_bucket.go:28-35 | a bucket number in range for every hash |
| BucketsCode.LapVisits | internal/bucket/p1_bucket.go:50-56 | n probes from any start visit every bucket |
| BucketsCode.ProbesGoRound | internal/bucket/p1_bucket.go:50-56 | the first probe is at the bucket the hash falls on, each further one at the next bucket, round |
| BucketsCode.Store.DeductWithProbe | internal/bucket/p1_bucket.go:37-64 | at most 1 + MaxProbes buckets; success names the bucket it took from; an error may hide a deduction from the probed bucket; in a quiet run every bucket probed in vain is still short, and a refusal after a full lap means every bucket is short and at most n * (q - 1) is left |
| BucketsCode.Store.RollbackToBucket | internal/bucket/p1_bucket.go:66-78 | gives back to exactly the bucket named, and does nothing for a negative one or when the command fails |
| BucketsCode.Store.PlaceOrderWithBucketDeduct | internal/bucket/model.go:100-155 | placed if and only if valid, deducted and committed; refused for stock only after its probes, all in vain; a failed transaction gave the stock back to its bucket exactly if the rollback took effect; a probe error may leave it out |
| BucketsCode.PlanIsExact | internal/bucket/p2_spread.go:35-45 | planned buckets differ by at most one and sum to the stock if and only if it is non-negative or divides evenly |
| BucketsCode.SpreadIsExact | internal/bucket/p2_spread.go:29-52 | the same of the keys after a spread over any old keys; a second spread changes nothing |
| BucketsCode.Keys.SpreadStock | internal/bucket/p2_spread.go:29-52 | the loop plans and writes exactly those shares |
| BucketsCode.Keys.TotalRemaining | internal/bucket/p2_spread.go:54-87 | the sum and the detail of n keys, missing ones as zero |
| TokenBucket.RefillIsLeastRoom | internal/overload/p2_bucket.go:42-58 | refilled and capped tokens are the least, over all windows ending now, of capacity + rate * length - admissions |
| TokenBucket.GainOver | internal/overload/p2_bucket.go:47 | the refill is rate times length, from whatever reading on |
| TokenBucket.WindowLaw | internal/overload/p2_bucket.go:42-58 | under a non-decreasing clock admissions in any window are at most capacity + rate * length |
| TokenBucket.Bucket.constructor | internal/overload/p2_bucket.go:28-39 | a full bucket |
| TokenBucket.Bucket.Allow | internal/overload/p2_bucket.go:42-58 | admits if and only if one more admission keeps every window ending now within its bound |
| TokenBucket.Bucket.Tokens | internal/overload/p2_bucket.go:61-70 | reads that least room and changes nothing |
| TokenBucket.Bucket.Bounded | internal/overload/p2_bucket.go:42-58 | the window law for every history a bucket object went through |
| Breaker.EveryRunCounts | internal/overload/p3_breaker.go:52-107 | for every interleaving of calls split at `fn`: `failures` is exactly the non-probe failures since the last success, closed implies below threshold, a round starts at most `HalfOpenProbes` probes in all |
| Breaker.StepKeepsInv | internal/overload/p3_breaker.go:52-107 | each locked section keeps those counters exact |
| Breaker.OpenStartsNothing | internal/overload/p3_breaker.go:58-72 | an open breaker starts `fn` if and only if it has cooled down and probes are allowed |
| Breaker.WhatStarts | internal/overload/p3_breaker.go:53-72 | a call starts if and only if the breaker is closed, its half-open round has started fewer probes than the limit, or it has cooled down and the limit is not zero; it is a probe unless the breaker was closed |
| Breaker.CoolDownStartsNothing | internal/overload/p3_breaker.go:52-107 | over any run without a successful probe: until openedAt + OpenFor the breaker stays open and no `fn` starts, whatever old calls do |
| Breaker.OnlyAProbeCloses | internal/overload/p3_breaker.go:79-88 | closed is re-entered if and only if a probe succeeds |
| Breaker.WhatTrips | internal/overload/p3_breaker.go:79-97 | closed or half-open opens if and only if a failure reaches the threshold or a probe fails, and the cool-down starts at that moment |
| Breaker.ExcessProbesLinger | internal/overload/p3_breaker.go:58-72 | running probes are at most the limit plus those that linger from older rounds |
| Breaker.ThreeProbesUnderALimitOfTwo | internal/overload/p3_breaker.go:52-107 | a run in which lingering probes exceed the limit |
| BreakerCode.CircuitBreaker.CheckTransitionLocked | internal/overload/p3_breaker.go:100-107 | an expired open state becomes half-open with no probes in flight |
| BreakerCode.CircuitBreaker.CurrentMode | internal/overload/p3_breaker.go:109-115 | what `State` answers and does |
| BreakerCode.CircuitBreaker.Enter | internal/overload/p3_breaker.go:53-72 | the section before `fn` is one `Start` step; admitted, and probing, if and only if the mode, the clock and the probes in flight say so |
| BreakerCode.CircuitBreaker.Leave | internal/overload/p3_breaker.go:76-97 | the section after `fn` is one `Finish` step, field by field |
| BreakerCode.CircuitBreaker.Do | internal/overload/p3_breaker.go:52-98 | whether `fn` runs is exactly what the state the call found says; with others running during `fn`, the counters mean what they should when it returns |
| ExpiryIndex.ClaimsAreApart | internal/expire/p1_claim.go:19-39 | the clock readings of two claims of one member, not re-indexed in between, are at least the extension apart, in whatever order workers read their clocks and ran the script |
| ExpiryIndex.ClaimTakesItsBatch | internal/expire/p1_claim.go:19-39 | a claim removes exactly its batch from the due set if the extension is at least one, and nothing otherwise |
| ExpiryIndex.DrainIsExact | internal/expire/p1_claim.go:19-39 | repeated claims at one instant return disjoint batches whose union is the due set |
| ExpiryIndex.DrainLength | internal/expire/p1_claim.go:19-39 | a drain takes ceil(due / batch) non-empty claims |
| ExpiryIndex.DrainEndsIffScoresMove | internal/expire/p1_claim.go:33-39 | a drain ends if and only if the extension is at least one or nothing is due |
| ExpiryIndex.Index.IndexOrder | internal/expire/p1_claim.go:10-17 | from the given instant on, and not before, the order is due; no other order changes |
| ExpiryIndex.Index.ClaimDue | internal/expire/p1_claim.go:19-39 | the loop moves exactly the claimed members to the new score |
| ExpiryIndex.Index.RemoveProcessedExpiry | internal/expire/p2_close.go:51-55 | the order is due at no instant any more; no other order changes |
| ExpiryClose.EveryRunRestoresOnce | internal/expire/p2_close.go:16-55 | stock is restored at most once and never for a paid order, stock plus what orders keep is constant, a closed unrestored order exists if and only if its one winner has not restored it |
| ExpiryClose.StepKeepsInv | internal/expire/p2_close.go:16-55 | placing, paying, loading, closing, restoring and removing keep that |
| ExpiryClose.FinalStatusesAreFinal | internal/expire/p2_close.go:13-40 | paid stays paid, closed stays closed |
| ExpiryCloseCode.Scanner.CloseCreatedOrder | internal/expire/p2_close.go:16-40 | one changed row if and only if the order is still created when the update runs, and then this worker is the winner; a paid order is left alone; an unknown order or a failed update is an error, which may have closed the order |
| ExpiryCloseCode.Scanner.RestoreClosedStock | internal/expire/p2_close.go:42-49 | restores the order once for a winner if the command takes effect, and changes nothing for a loser |
| Snowflake.FieldsDoNotOverlap | internal/idgen/snowflake.go:10-18 | on 64-bit words shifts and ors are the sum, and shifting back recovers every field |
| Snowflake.UnpackPack | internal/idgen/snowflake.go:44-67 | unpacking returns time, node and sequence; ids fit a non-negative int64 |
| Snowflake.PackIncreases | internal/idgen/snowflake.go:44-67 | later readings and sequence numbers give larger ids |
| Snowflake.NewNode | internal/idgen/snowflake.go:31-40 | a node if and only if its number is in range |
| Snowflake.Node.NextID | internal/idgen/snowflake.go:44-67 | for arbitrary clock readings: an error that changes nothing if and only if the clock went back, else an id above all earlier ones, stamped with the first reading and the next sequence number, or, when the sequence wraps, with the first later reading past the last timestamp |
| Snowflake.IdsAreDistinct | internal/idgen/snowflake.go:20-67 | all ids of nodes with distinct numbers are distinct |
| Reservation.EveryRunConserves | internal/inventory/reservation.go:16-57 | for every sequence of scripts, stock is non-negative and stock plus reserved quantity is the initial stock |
| Reservation.StepKeepsInv | internal/inventory/reservation.go:16-57 | every script call keeps that, repeats and reused ids included |
| Reservation.RepeatsActOnce | internal/inventory/reservation.go:16-57 | repeats act once, and a restore undoes exactly its reservation |
| Reservation.ScriptsAreLocal | internal/inventory/reservation.go:16-57 | a script touches only its own request |
| AsyncOrder.AfterSubmits | internal/asyncorder/service.go:26-39 | after any submissions of one request, one after the other: reserved unless the last that reached Redis was compensated, produced if any succeeded, stock moved at most once |
| AsyncOrder.ReservedIffProduced | internal/asyncorder/service.go:26-39 | for one submission, reserved if and only if produced, exactly unless its reserve acted unheard or its compensation failed; for repeats in sequence the exact condition on what became of them |
| AsyncRuns.ConcurrentSubmissions | internal/asyncorder/service.go:26-39 | for any interleaving of submissions of one request, among scripts of others: at rest, reserved without a message needs a stuck or unheard submission, a message without a reservation a compensated one; with neither, reserved if and only if produced |
| AsyncRuns.StepKeepsInv | internal/asyncorder/service.go:26-39 | every step keeps each reservation answered for by a submission |
| AsyncRuns.ConcurrentRepeatLosesReservation | internal/asyncorder/service.go:26-39 | a run in which one of two concurrent submissions gives back the stock of the other's order |
| AsyncOrderCode.Service.RunReserve | internal/inventory/reservation.go:16-109 | each reply of the script and of the checks before it if and only if its condition, and what it does; the branches are the reserve function those laws are about |
| AsyncOrderCode.Service.RunRestore | internal/inventory/reservation.go:41-127 | each reply of the script if and only if its condition, and what it does; the branches are the restore function those laws are about |
| AsyncOrderCode.Service.PlaceOrderAsync | internal/asyncorder/service.go:26-39 | each reply with its exact condition, a refusal only for what the reserve refused; with other requests in between: a new request ends reserved if and only if its message was produced, exactly unless its reserve acted unheard or its compensation failed |
| ProductCache.StaleOnlyForAReason | internal/cache/product.go:89-155 | a cached row misses a write only if that write's delete is still to come, or ran before this fill, whose load had read before the write |
| ProductCache.OvertakenLoadLeavesOldRow | internal/cache/product.go:95-110 | the second reason occurs |
| ProductCache.HitsAreRecent | internal/cache/product.go:68-140 | whoever writes the row, what a hit returns was the row less than the largest TTL (TTL + jitter, or the miss TTL) plus the load time ago |
| ProductCache.TtlFor | internal/cache/product.go:131-140 | a missing row gets exactly the miss TTL, a product the TTL plus less than the jitter; none is above the largest TTL |
| ProductCacheCode.Cache.LoadAndFill | internal/cache/product.go:89-110 | returns a row no older than the call and fills the cache with it, for the TTL of its kind; a refused fill does not fail it, a database error does |
| ProductCacheCode.Cache.Get | internal/cache/product.go:68-87 | hit, own load, shared load or error, each when its condition holds, with anything between miss and load; its own load fills the cache; whatever it returns was the row within the bound |
| ProductCacheCode.Cache.Warm | internal/cache/product.go:112-129 | stops only at a database error; a listed product was loaded, no older than the call |
| ProductCacheCode.Cache.UpdateStock | internal/cache/product.go:147-155 | the new row is written as soon as the database agrees; success if and only if the row exists and both commands answer; if the DEL runs, nothing is cached at its end |

## Left out

- The theorems of `Reconciliation` on prompt runs take request ids of ledger enqueues as distinct, as the counterexample for repeats shows they must be; `Ledger` does not.
- Quantities are positive where the source does not check (`EnqueueOrder`, `EnqueueWithLedger`, `DeductWithProbe`); `BucketCount` >= 1, `MaxProbes` >= 0, `MaxAttempts` >= 1, `FailureThreshold` >= 1, TTLs >= 1 millisecond, batch size >= 0.
- A produce, transaction commit or offset commit that reports failure is taken not to have happened. Commands whose error the source drops (rollbacks, restore, release, fills) are modelled by whether they took effect; gate, bucket, reserve and settle scripts, record, renew, acquire, release, warm-up, DEL and the closing update may also take effect with their reply lost.
- Where the code only returns the error of a read, or of the claim script, `ZADD`, `ZREM` or `MSET`, the call is taken to end there.
- Each protocol is modelled alone per product, as the paths do not share `version`; the lock, gate and bucket models assume that the product row exists. The placement paths are not mixed, nor expiry restores with the identity.
- JSON, key and header formats, the hash behind `StartBucket` (only its range), token and jitter randomness (only uniqueness and range), and the order ZRANGE gives to equal scores (any order is allowed).
- Time is whole milliseconds, or reals in the token bucket; floating-point rounding and the overflow of backoff shifts are not modelled.
- Lock waits: a statement that would wait is not enabled in the protocol; in code it ends in an abort, as a lock wait timeout does. Fairness and progress are not stated.
- singleflight, go-redis, franz-go and InnoDB internals; only the step each provides.
- `PlaceOrderNaive`, HTTP handlers, gRPC adapters, metrics, graceful shutdown, admission queue, percentiles, connection setup, and the bodies that only panic (canary, interceptor, shard, etcd registry).
